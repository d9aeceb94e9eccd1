/** The photovoltaic panel of panel.py: an empirical two-branch current-versus-voltage
    curve after Pindado et al., scaled linearly by irradiance and clamped at zero.

    The curve raises reals to fractional powers. Dafny has no real exponentiation, so
    every member takes the power function `pow` (x ** a) as a parameter, and the
    lemmas assume of it only the three laws of `PowLaws`. */
module PanelModel {
  import opened Wrappers

  /** x ** a, for the real base x and the real exponent a. */
  type PowFn = (real, real) -> real

  /** The laws of x ** a that the anchor points of the curve rest on. */
  ghost predicate PowLaws(pow: PowFn) {
    (forall a: real :: a > 0.0 ==> pow(0.0, a) == 0.0) &&
    (forall a: real :: pow(1.0, a) == 1.0) &&
    (forall x: real, a: real :: x > 1.0 && a > 0.0 ==> pow(x, a) > 1.0)
  }

  /** The three laws do not contradict each other: the identity in the base obeys them. */
  lemma PowLawsSatisfiable()
    ensures exists pow: PowFn :: PowLaws(pow)
  {
    var identity: PowFn := (x: real, a: real) => x;
    assert PowLaws(identity);
  }

  /** A panel: its open-circuit voltage, its maximum-power-point voltage, its
      short-circuit current, its maximum-power-point current, its rated power, and
      the exponent eta of the high-voltage branch, computed once at construction. */
  datatype Panel = Panel(voc: real, vmp: real, isc: real, imp: real, maxPower: real, eta: real)

  /** The second estimate of eta in Pindado et al.; its three divisions are those of the constructor. */
  function Eta(voc: real, vmp: real, isc: real, imp: real): (eta: real)
    requires imp != 0.0 && isc - imp != 0.0 && voc != 0.0
  {
    (isc / imp) * (isc / (isc - imp)) * ((voc - vmp) / voc)
  }

  /** The ordering of the panel's characteristic points that the curve needs. */
  predicate Characteristic(voc: real, vmp: real, isc: real, imp: real) {
    0.0 < imp < isc && 0.0 < vmp < voc
  }

  /** A panel whose characteristic points are ordered and whose eta is the one its constructor computes. */
  predicate WellFormed(p: Panel) {
    Characteristic(p.voc, p.vmp, p.isc, p.imp) && p.eta == Eta(p.voc, p.vmp, p.isc, p.imp)
  }

  /** eta is strictly positive for every panel with ordered characteristic points. */
  lemma EtaPositive(voc: real, vmp: real, isc: real, imp: real)
    requires Characteristic(voc, vmp, isc, imp)
    ensures Eta(voc, vmp, isc, imp) > 0.0
  {
    var f1, f2, f3 := isc / imp, isc / (isc - imp), (voc - vmp) / voc;
    assert f1 > 0.0 && f2 > 0.0 && f3 > 0.0;
    assert f1 * f2 > 0.0;
    assert (f1 * f2) * f3 > 0.0;
  }

  /** The constructor: stores its arguments and eta as Eta computes it. It has no panel (the
      source raises a division by zero) exactly when Imp, Isc - Imp or Voc is zero; a
      panel with ordered characteristic points always constructs, well formed and with eta > 0. */
  function MakePanel(voc: real, vmp: real, isc: real, imp: real, maxPower: real): (r: Option<Panel>)
    ensures r.None? <==> (imp == 0.0 || isc - imp == 0.0 || voc == 0.0)
    ensures r.Some? ==> r.value.voc == voc && r.value.vmp == vmp && r.value.isc == isc
                        && r.value.imp == imp && r.value.maxPower == maxPower
                        && r.value.eta == Eta(voc, vmp, isc, imp)
    ensures Characteristic(voc, vmp, isc, imp) ==> r.Some? && WellFormed(r.value) && r.value.eta > 0.0
  {
    if imp == 0.0 || isc - imp == 0.0 || voc == 0.0 then None
    else
      var p := Panel(voc, vmp, isc, imp, maxPower, Eta(voc, vmp, isc, imp));
      if Characteristic(voc, vmp, isc, imp) then EtaPositive(voc, vmp, isc, imp); Some(p)
      else Some(p)
  }

  /** The branch for voltages below Vmp, at full sun. */
  function LowBranch(p: Panel, pow: PowFn, pv: real): real
    requires WellFormed(p)
  {
    p.isc * (1.0 - (1.0 - p.imp / p.isc) * pow(pv / p.vmp, p.imp / (p.isc - p.imp)))
  }

  /** The branch for voltages at or above Vmp, at full sun. */
  function HighBranch(p: Panel, pow: PowFn, pv: real): real
    requires WellFormed(p) && pv >= p.vmp
  {
    p.imp * (p.vmp / pv) * (1.0 - pow((pv - p.vmp) / (p.voc - p.vmp), p.eta))
  }

  /** The current at full sun before clamping: the first formula strictly below Vmp,
      the second from Vmp on. */
  function FullSunCurrent(p: Panel, pow: PowFn, pv: real): (amps: real)
    requires WellFormed(p)
    ensures pv < p.vmp ==> amps == LowBranch(p, pow, pv)
    ensures pv >= p.vmp ==> amps == HighBranch(p, pow, pv)
  {
    if pv < p.vmp then LowBranch(p, pow, pv) else HighBranch(p, pow, pv)
  }

  /** panel_output: the panel current at voltage `pv` under irradiance `ir` (W/m^2,
      1000 being full sun). It is never negative, and when the scaled full-sun current
      is not negative it is that current. */
  function PanelOutput(p: Panel, pow: PowFn, pv: real, ir: real): (amps: real)
    requires WellFormed(p)
    ensures amps >= 0.0
    ensures (ir / 1000.0) * FullSunCurrent(p, pow, pv) >= 0.0 ==> amps == (ir / 1000.0) * FullSunCurrent(p, pow, pv)
    ensures (ir / 1000.0) * FullSunCurrent(p, pow, pv) < 0.0 ==> amps == 0.0
  {
    var perc := ir / 1000.0;
    var amps := perc * FullSunCurrent(p, pow, pv);
    if amps < 0.0 then 0.0 else amps
  }

  /** get_irradiance: the inverse of the curve is left unwritten, so the estimate is
      full sun whatever the voltage and the current. */
  function GetIrradiance(p: Panel, pow: PowFn, v: real, i: real): (irr: real)
    requires WellFormed(p)
    ensures irr == 1000.0
  {
    var maxCurrent := PanelOutput(p, pow, v, 1000.0);
    1000.0
  }

  /** The output at any irradiance is irradiance/1000 times the output at full sun
      (for non-negative irradiance), so no irradiance at all gives no current. */
  lemma IrradianceScaling(p: Panel, pow: PowFn, pv: real, ir: real)
    requires WellFormed(p) && ir >= 0.0
    ensures PanelOutput(p, pow, pv, ir) == (ir / 1000.0) * PanelOutput(p, pow, pv, 1000.0)
    ensures ir == 0.0 ==> PanelOutput(p, pow, pv, ir) == 0.0
  {
    var c := FullSunCurrent(p, pow, pv);
    if c >= 0.0 {
      assert (ir / 1000.0) * c >= 0.0;
    } else {
      assert (ir / 1000.0) * c <= 0.0;
    }
  }

  /** At a fixed voltage the output does not decrease as the irradiance grows. */
  lemma IrradianceMonotone(p: Panel, pow: PowFn, pv: real, ir1: real, ir2: real)
    requires WellFormed(p) && 0.0 <= ir1 <= ir2
    ensures PanelOutput(p, pow, pv, ir1) <= PanelOutput(p, pow, pv, ir2)
  {
    IrradianceScaling(p, pow, pv, ir1);
    IrradianceScaling(p, pow, pv, ir2);
    var full := PanelOutput(p, pow, pv, 1000.0);
    assert (ir1 / 1000.0) * full <= (ir2 / 1000.0) * full;
  }

  /** Short circuit: at zero volts the full-sun current is Isc. */
  lemma ShortCircuitCurrent(p: Panel, pow: PowFn)
    requires WellFormed(p) && PowLaws(pow)
    ensures FullSunCurrent(p, pow, 0.0) == p.isc
    ensures forall ir :: ir >= 0.0 ==> PanelOutput(p, pow, 0.0, ir) == p.isc * ir / 1000.0
  {
    var a := p.imp / (p.isc - p.imp);
    assert a > 0.0;
    assert 0.0 / p.vmp == 0.0;
    assert pow(0.0, a) == 0.0;
    forall ir | ir >= 0.0
      ensures PanelOutput(p, pow, 0.0, ir) == p.isc * ir / 1000.0
    {
      assert (ir / 1000.0) * p.isc >= 0.0;
    }
  }

  /** The two branches meet at the maximum power point, both giving Imp there. */
  lemma BranchesMeetAtMpp(p: Panel, pow: PowFn)
    requires WellFormed(p) && PowLaws(pow)
    ensures LowBranch(p, pow, p.vmp) == p.imp
    ensures HighBranch(p, pow, p.vmp) == p.imp
  {
    EtaPositive(p.voc, p.vmp, p.isc, p.imp);
    assert p.vmp / p.vmp == 1.0;
    assert (p.vmp - p.vmp) / (p.voc - p.vmp) == 0.0;
    assert pow(0.0, p.eta) == 0.0;
    assert p.isc * (1.0 - (1.0 - p.imp / p.isc)) == p.imp;
  }

  /** At exactly Vmp the second formula is taken, and the output is Imp scaled by irradiance. */
  lemma MaxPowerPointCurrent(p: Panel, pow: PowFn, ir: real)
    requires WellFormed(p) && PowLaws(pow) && ir >= 0.0
    ensures FullSunCurrent(p, pow, p.vmp) == HighBranch(p, pow, p.vmp) == p.imp
    ensures PanelOutput(p, pow, p.vmp, ir) == p.imp * ir / 1000.0
  {
    BranchesMeetAtMpp(p, pow);
    assert (ir / 1000.0) * p.imp >= 0.0;
  }

  /** Beyond Voc the full-sun current is negative. */
  lemma BeyondOpenCircuitNegative(p: Panel, pow: PowFn, pv: real)
    requires WellFormed(p) && PowLaws(pow) && pv > p.voc
    ensures FullSunCurrent(p, pow, pv) < 0.0
  {
    EtaPositive(p.voc, p.vmp, p.isc, p.imp);
    var d := p.voc - p.vmp;
    var base := (pv - p.vmp) / d;
    RatioAboveOne(pv - p.vmp, d);
    assert pow(base, p.eta) > 1.0;
    var k := p.imp * (p.vmp / pv);
    assert k > 0.0;
    assert k * (1.0 - pow(base, p.eta)) < 0.0;
  }

  /** A quotient of a number by a smaller positive one exceeds one. */
  lemma RatioAboveOne(x: real, d: real)
    requires x > d > 0.0
    ensures x / d > 1.0
  {
  }

  /** Open circuit: the output is zero at Voc for every irradiance, and zero above Voc
      for every non-negative irradiance, where the negative current is clamped. */
  lemma OpenCircuitOutput(p: Panel, pow: PowFn, pv: real, ir: real)
    requires WellFormed(p) && PowLaws(pow) && pv >= p.voc
    requires pv == p.voc || ir >= 0.0
    ensures PanelOutput(p, pow, pv, ir) == 0.0
  {
    if pv == p.voc {
      EtaPositive(p.voc, p.vmp, p.isc, p.imp);
      assert (p.voc - p.vmp) / (p.voc - p.vmp) == 1.0;
      assert FullSunCurrent(p, pow, pv) == 0.0;
    } else {
      BeyondOpenCircuitNegative(p, pow, pv);
      assert (ir / 1000.0) * FullSunCurrent(p, pow, pv) <= 0.0;
    }
  }

  /** The panel of sim.py:172: it constructs, and at Vmp under full sun it gives Imp. */
  lemma SmallPanelAtMpp(pow: PowFn)
    requires PowLaws(pow)
    ensures MakePanel(21.6, 18.0, 220.32, 201.6, 3600.0).Some?
    ensures PanelOutput(MakePanel(21.6, 18.0, 220.32, 201.6, 3600.0).value, pow, 18.0, 1000.0) == 201.6
  {
    assert Characteristic(21.6, 18.0, 220.32, 201.6);
    var p := MakePanel(21.6, 18.0, 220.32, 201.6, 3600.0).value;
    MaxPowerPointCurrent(p, pow, 1000.0);
  }
}
