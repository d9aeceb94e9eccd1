/** The load object of dynamicLoad.py: a consumer fed from the capacitor that sits
    between the panel and the load. It keeps its configuration, its power target, its
    state label and the voltages and power of the last step. get_power works out the
    capacitor current and an estimate of the panel power from the capacitor's voltage
    change, discards both, and draws a constant 15 W. */
module DynamicLoadModel {
  import opened Wrappers

  /** The power get_power reports, whatever its inputs. */
  const DrawnPower: real := 15.0

  class DynamicLoad {
    var pwrScaleUpSpeed: real
    var pwrScaleDownSpeed: real
    var curtailDelay: real
    var maxPower: real
    var target: real
    var minPower: real
    var state: string
    var curtailTime: real
    var capacitorSize: real
    var lastPanelVoltage: real
    var lastCapVoltage: real
    var lastPower: real

    /** __init__: the arguments are stored as given; the load starts "running", with no
        curtail time elapsed, and both its target and its last power at maxPower. */
    constructor (pwrScaleUpSpeed: real, pwrScaleDownSpeed: real, curtailDelay: real,
                 maxPower: real, minPower: real, capacitorSize: real,
                 initialPanelVoltage: real, initialCapVoltage: real)
      ensures this.pwrScaleUpSpeed == pwrScaleUpSpeed && this.pwrScaleDownSpeed == pwrScaleDownSpeed
      ensures this.curtailDelay == curtailDelay && this.maxPower == maxPower && this.minPower == minPower
      ensures this.capacitorSize == capacitorSize
      ensures lastPanelVoltage == initialPanelVoltage && lastCapVoltage == initialCapVoltage
      ensures state == "running" && curtailTime == 0.0
      ensures target == maxPower && lastPower == maxPower
    {
      this.pwrScaleUpSpeed := pwrScaleUpSpeed;
      this.pwrScaleDownSpeed := pwrScaleDownSpeed;
      this.curtailDelay := curtailDelay;
      this.maxPower := maxPower;
      target := maxPower;
      this.minPower := minPower;
      state := "running";
      curtailTime := 0.0;
      this.capacitorSize := capacitorSize;
      lastPanelVoltage := initialPanelVoltage;
      lastCapVoltage := initialCapVoltage;
      lastPower := target;
    }

    /** The capacitor current over a step of dt seconds that ends at capacitorVoltage: the
        voltage change from lastCapVoltage over capacitorSize * dt. Multiplied back by
        capacitorSize * dt it gives the voltage change. */
    function CapAmps(capacitorVoltage: real, dt: real): (amps: real)
      reads this
      requires capacitorSize * dt != 0.0
      ensures amps * (capacitorSize * dt) == capacitorVoltage - lastCapVoltage
    {
      (capacitorVoltage - lastCapVoltage) / (capacitorSize * dt)
    }

    /** The estimate of the panel power over the step: the last power plus the capacitor
        current at the mean capacitor voltage. Its excess over lastPower, times
        2 * capacitorSize * dt, is the change of the squared capacitor voltage. */
    function PanelPowerEstimate(capacitorVoltage: real, dt: real): (watts: real)
      reads this
      requires capacitorSize * dt != 0.0
      ensures (watts - lastPower) * (2.0 * (capacitorSize * dt))
              == capacitorVoltage * capacitorVoltage - lastCapVoltage * lastCapVoltage
    {
      var amps := CapAmps(capacitorVoltage, dt);
      SquareDifference(amps, capacitorSize * dt, capacitorVoltage, lastCapVoltage);
      lastPower + amps * (capacitorVoltage + lastCapVoltage) / 2.0
    }

    /** get_power: no result when capacitorSize * dt is zero (the division of capAmps
        fails), and otherwise 15, whatever the voltages; it writes no field. */
    method GetPower(panelVoltage: real, capacitorVoltage: real, dt: real) returns (power: Option<real>)
      ensures power.None? <==> capacitorSize * dt == 0.0
      ensures power.Some? ==> power.value == DrawnPower
    {
      if capacitorSize * dt == 0.0 {
        return None;
      }
      var capAmps := CapAmps(capacitorVoltage, dt);
      var panelPower := PanelPowerEstimate(capacitorVoltage, dt);
      power := Some(DrawnPower);
    }

    /** Over a step of positive capacitorSize * dt, the capacitor current is positive
        exactly when the capacitor charged, zero exactly when its voltage held, and
        negative exactly when it discharged. */
    lemma CapAmpsSign(capacitorVoltage: real, dt: real)
      requires capacitorSize * dt > 0.0
      ensures CapAmps(capacitorVoltage, dt) > 0.0 <==> capacitorVoltage > lastCapVoltage
      ensures CapAmps(capacitorVoltage, dt) == 0.0 <==> capacitorVoltage == lastCapVoltage
      ensures CapAmps(capacitorVoltage, dt) < 0.0 <==> capacitorVoltage < lastCapVoltage
    {
      var amps := CapAmps(capacitorVoltage, dt);
      ProductSign(amps, capacitorSize * dt);
    }

    /** When the capacitor's voltage held over the step, the panel power estimate is the
        last power; when it rose (from a non-negative voltage, over a positive
        capacitorSize * dt), the estimate exceeds the last power. */
    lemma PanelPowerEstimateTracksCharge(capacitorVoltage: real, dt: real)
      requires capacitorSize * dt > 0.0
      ensures capacitorVoltage == lastCapVoltage ==> PanelPowerEstimate(capacitorVoltage, dt) == lastPower
      ensures 0.0 <= lastCapVoltage < capacitorVoltage ==> PanelPowerEstimate(capacitorVoltage, dt) > lastPower
    {
      var watts := PanelPowerEstimate(capacitorVoltage, dt);
      var k := 2.0 * (capacitorSize * dt);
      if 0.0 <= lastCapVoltage < capacitorVoltage {
        SquaresIncrease(lastCapVoltage, capacitorVoltage);
        ProductSign(watts - lastPower, k);
      } else if capacitorVoltage == lastCapVoltage {
        ProductSign(watts - lastPower, k);
      }
    }
  }

  /** If a * k == x - y with k nonzero, then a * (x + y) / 2 times 2 * k is x*x - y*y. */
  lemma SquareDifference(a: real, k: real, x: real, y: real)
    requires k != 0.0 && a * k == x - y
    ensures (a * (x + y) / 2.0) * (2.0 * k) == x * x - y * y
  {
    calc {
      (a * (x + y) / 2.0) * (2.0 * k);
      (a * k) * (x + y);
      (x - y) * (x + y);
      x * x - y * y;
    }
  }

  /** The sign of a * k for positive k is the sign of a. */
  lemma ProductSign(a: real, k: real)
    requires k > 0.0
    ensures a * k > 0.0 <==> a > 0.0
    ensures a * k == 0.0 <==> a == 0.0
    ensures a * k < 0.0 <==> a < 0.0
  {
    if a > 0.0 {
      assert a * k > 0.0;
    } else if a < 0.0 {
      assert (-a) * k > 0.0;
    }
  }

  lemma SquaresIncrease(y: real, x: real)
    requires 0.0 <= y < x
    ensures x * x - y * y > 0.0
  {
    assert x * x - y * y == (x - y) * (x + y);
    ProductSign(x + y, x - y);
  }
}
