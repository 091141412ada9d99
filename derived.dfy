/**
 * The quantities a publish cycle derives from a snapshot: the net energy since the
 * installation day, the phase current at nominal voltage, and the fixed energy share
 * of each phase. Both variants compute them the same way.
 */
module Derived {
  import opened Numeric
  import opened Sink
  import Config

  /** `e_total / 10000 - 73311`: kWh counted since the installation day. */
  function NetEnergyKWh(energyTotal: real): (e: real)
    ensures (e + Config.InitialEnergyOffset as real) * Config.RawUnitsPerKWh as real == energyTotal
    ensures e == 0.0 <==> energyTotal == Config.InitialEnergyTotal
  {
    energyTotal / Config.RawUnitsPerKWh as real - Config.InitialEnergyOffset as real
  }

  /** `p / 230`: the current that carries power `p` at nominal voltage. */
  function CurrentAt(power: real): (a: real)
    ensures a * Config.NominalVoltage as real == power
    ensures (a < 0.0 <==> power < 0.0) && (a == 0.0 <==> power == 0.0)
  {
    power / Config.NominalVoltage as real
  }

  /** The share of the energy counter attributed to a phase. */
  function Share(ph: Phase): (f: real)
    ensures 0.0 < f < 1.0
  {
    match ph
    case L1 => Config.ShareL1
    case L2 => Config.ShareL2
    case L3 => Config.ShareL3
  }

  /** Before rounding, the three phase energies add up to the net energy. */
  lemma PhaseEnergiesAddUp(e: real)
    ensures e * Share(L1) + e * Share(L2) + e * Share(L3) == e
  {
    calc {
      e * Share(L1) + e * Share(L2) + e * Share(L3);
      e * (Share(L1) + Share(L2) + Share(L3));
      e * 1.0;
    }
  }

  /**
   * Reference values: the seed counter reads 0.0 kWh, one more kWh (10000 vendor units)
   * reads 1.0, and phase powers 230, 460, 0 W give 1.0, 2.0, 0.0 A after rounding.
   */
  lemma ReferenceValues()
    ensures NetEnergyKWh(Config.InitialEnergyTotal) == 0.0
    ensures NetEnergyKWh(733120000.0) == 1.0
    ensures NetEnergyKWh(733111000.0) == 0.1
    ensures Round1(CurrentAt(230.0)) == 1.0
    ensures Round1(CurrentAt(460.0)) == 2.0
    ensures Round1(CurrentAt(0.0)) == 0.0
  {
    Round1Exact(1.0);
    Round1Exact(2.0);
    Round1Exact(0.0);
  }
}
