/**
 * The refactored bridge's measurement store (`MQTTDataStore`): seven fields, each
 * replaced by its own setter; `get_all` copies them into one snapshot. The lock only
 * makes each method atomic, so each method here is one sequential step.
 */
module Store {
  import opened Wrappers
  import opened Numeric
  import Config

  /** The dictionary `get_all` returns. */
  datatype Snapshot = Snapshot(
    totalPower: real,   // W
    energyToday: real,  // 0.1 Wh
    energyTotal: real,  // 0.1 Wh, cumulative
    powerL1: real,      // W
    powerL2: real,      // W
    powerL3: real,      // W
    connected: bool)

  /**
   * The values `__init__` seeds: zero everywhere but the energy counter, which holds
   * the installation-day offset in 0.1 Wh, and not connected.
   */
  function Initial(): (s: Snapshot)
    ensures s.totalPower == s.energyToday == 0.0
    ensures s.powerL1 == s.powerL2 == s.powerL3 == 0.0
    ensures s.energyTotal == 733110000.0 && !s.connected
  {
    Snapshot(0.0, 0.0, Config.InitialEnergyTotal, 0.0, 0.0, 0.0, false)
  }

  /**
   * `update_phase_powers`: the three strings are converted and assigned one after the
   * other, so a conversion that raises leaves the phases before it already replaced.
   */
  function AssignPhases(s: Snapshot, l1: string, l2: string, l3: string, parse: RealParser): (r: Snapshot)
    ensures r.totalPower == s.totalPower && r.energyToday == s.energyToday
    ensures r.energyTotal == s.energyTotal && r.connected == s.connected
    ensures r.powerL1 == (if parse(l1).Some? then parse(l1).value else s.powerL1)
    ensures r.powerL2 == (if parse(l1).Some? && parse(l2).Some? then parse(l2).value else s.powerL2)
    ensures r.powerL3 == (if parse(l1).Some? && parse(l2).Some? && parse(l3).Some? then parse(l3).value else s.powerL3)
  {
    match parse(l1)
    case None => s
    case Some(a) =>
      var s1 := s.(powerL1 := a);
      match parse(l2)
      case None => s1
      case Some(b) =>
        var s2 := s1.(powerL2 := b);
        match parse(l3)
        case None => s2
        case Some(c) => s2.(powerL3 := c)
  }

  class DataStore {
    var totalPower: real
    var energyToday: real
    var energyTotal: real
    var powerL1: real
    var powerL2: real
    var powerL3: real
    var connected: bool

    /** The current field values as one snapshot. */
    function Values(): Snapshot
      reads this
    {
      Snapshot(totalPower, energyToday, energyTotal, powerL1, powerL2, powerL3, connected)
    }

    constructor ()
      ensures Values() == Initial()
    {
      totalPower, energyToday, energyTotal := 0.0, 0.0, Config.InitialEnergyTotal;
      powerL1, powerL2, powerL3 := 0.0, 0.0, 0.0;
      connected := false;
    }

    /** `update_power(value)`; `ok` is false where `float(value)` raises. */
    method UpdatePower(value: string, parse: RealParser) returns (ok: bool)
      modifies this
      ensures ok == parse(value).Some?
      ensures Values() == if ok then old(Values()).(totalPower := parse(value).value) else old(Values())
    {
      var v := parse(value);
      if v.None? {
        return false;
      }
      totalPower := v.value;
      ok := true;
    }

    /** `update_energy_today(value)`. */
    method UpdateEnergyToday(value: string, parse: RealParser) returns (ok: bool)
      modifies this
      ensures ok == parse(value).Some?
      ensures Values() == if ok then old(Values()).(energyToday := parse(value).value) else old(Values())
    {
      var v := parse(value);
      if v.None? {
        return false;
      }
      energyToday := v.value;
      ok := true;
    }

    /** `update_energy_total(value)`. */
    method UpdateEnergyTotal(value: string, parse: RealParser) returns (ok: bool)
      modifies this
      ensures ok == parse(value).Some?
      ensures Values() == if ok then old(Values()).(energyTotal := parse(value).value) else old(Values())
    {
      var v := parse(value);
      if v.None? {
        return false;
      }
      energyTotal := v.value;
      ok := true;
    }

    /** `update_phase_powers(l1, l2, l3)`; `ok` is false where one of the conversions raises. */
    method UpdatePhasePowers(l1: string, l2: string, l3: string, parse: RealParser) returns (ok: bool)
      modifies this
      ensures ok == (parse(l1).Some? && parse(l2).Some? && parse(l3).Some?)
      ensures Values() == AssignPhases(old(Values()), l1, l2, l3, parse)
    {
      var a := parse(l1);
      if a.None? {
        return false;
      }
      powerL1 := a.value;
      var b := parse(l2);
      if b.None? {
        return false;
      }
      powerL2 := b.value;
      var c := parse(l3);
      if c.None? {
        return false;
      }
      powerL3 := c.value;
      ok := true;
    }

    /** `set_connected(state)`. */
    method SetConnected(state: bool)
      modifies this
      ensures Values() == old(Values()).(connected := state)
    {
      connected := state;
    }

    /** `get_all()`: every field, copied; the store is left as it was. */
    method GetAll() returns (s: Snapshot)
      ensures s.totalPower == totalPower && s.energyToday == energyToday && s.energyTotal == energyTotal
      ensures s.powerL1 == powerL1 && s.powerL2 == powerL2 && s.powerL3 == powerL3
      ensures s.connected == connected
    {
      s := Snapshot(totalPower, energyToday, energyTotal, powerL1, powerL2, powerL3, connected);
    }
  }
}
