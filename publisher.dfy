/**
 * The refactored bridge's DBus side (`DbusPVInverter`): the measurement paths
 * `_setup_paths` registers and the periodic `_update`, which reads one snapshot,
 * writes the derived values phase by phase and advances `/UpdateIndex`.
 */
module Publisher {
  import opened Numeric
  import opened Sink
  import opened Store
  import opened Derived
  import Config

  /**
   * The measurement paths with the initial values `_setup_paths` gives them: every
   * path is registered, the voltages at 230 and everything else at 0.
   */
  function Registered(): (m: Service)
    ensures forall p: Path :: p in m
    ensures forall p: Path :: m[p] == if p.PhaseVoltage? then IntVal(Config.NominalVoltage) else IntVal(0)
  {
    var m := map[
      AcPower := IntVal(0), AcEnergyForward := IntVal(0),
      PhaseVoltage(L1) := IntVal(230), PhaseVoltage(L2) := IntVal(230), PhaseVoltage(L3) := IntVal(230),
      PhaseCurrent(L1) := IntVal(0), PhaseCurrent(L2) := IntVal(0), PhaseCurrent(L3) := IntVal(0),
      PhasePower(L1) := IntVal(0), PhasePower(L2) := IntVal(0), PhasePower(L3) := IntVal(0),
      PhaseEnergyForward(L1) := IntVal(0), PhaseEnergyForward(L2) := IntVal(0), PhaseEnergyForward(L3) := IntVal(0),
      UpdateIndex := IntVal(0)];
    assert forall p: Path :: p in m && m[p] == if p.PhaseVoltage? then IntVal(Config.NominalVoltage) else IntVal(0) by {
      forall p: Path ensures p in m && m[p] == if p.PhaseVoltage? then IntVal(Config.NominalVoltage) else IntVal(0) {
        PathCases(p);
      }
    }
    m
  }

  /** The `powers` dictionary of `_update`. */
  function PowerOf(s: Snapshot, ph: Phase): real {
    match ph
    case L1 => s.powerL1
    case L2 => s.powerL2
    case L3 => s.powerL3
  }

  /** The three values one pass of the `for phase` loop publishes. */
  function CurrentValue(s: Snapshot, ph: Phase): Value {
    RealVal(Round1(CurrentAt(PowerOf(s, ph))))
  }

  function PowerValue(s: Snapshot, ph: Phase): Value {
    RealVal(Round1(PowerOf(s, ph)))
  }

  function EnergyValue(e: real, ph: Phase): Value {
    RealVal(Round1(e * Share(ph)))
  }

  /** One pass of the `for phase` loop: current, power, energy of that phase. */
  function PhaseWrites(s: Snapshot, e: real, ph: Phase): seq<Write> {
    [(PhaseCurrent(ph), CurrentValue(s, ph)),
     (PhasePower(ph), PowerValue(s, ph)),
     (PhaseEnergyForward(ph), EnergyValue(e, ph))]
  }

  /** The loop's writes from the `k`-th phase on. */
  function PhasesFrom(s: Snapshot, e: real, k: nat): (ws: seq<Write>)
    requires k <= |Phases|
    ensures |ws| == 3 * (|Phases| - k)
    decreases |Phases| - k
  {
    if k == |Phases| then [] else PhaseWrites(s, e, Phases[k]) + PhasesFrom(s, e, k + 1)
  }

  /** The loop's writes split into the current pass and the rest. */
  lemma PhasesFromStep(s: Snapshot, e: real, k: nat, last: seq<Write>)
    requires k < |Phases|
    ensures var ws := PhasesFrom(s, e, k) + last;
      |ws| >= 3 && ws[..3] == PhaseWrites(s, e, Phases[k]) && ws[3..] == PhasesFrom(s, e, k + 1) + last
  {
    var ws := PhasesFrom(s, e, k) + last;
    assert ws == PhaseWrites(s, e, Phases[k]) + (PhasesFrom(s, e, k + 1) + last);
  }

  /**
   * The writes of one `_update` on snapshot `s` with `/UpdateIndex` at `index`, in
   * order: twelve assignments, the last of which advances the index.
   */
  function CycleWrites(s: Snapshot, index: int): (ws: seq<Write>)
    ensures |ws| == 12 && ws[11] == (UpdateIndex, IntVal(NextIndex(index)))
  {
    var e := NetEnergyKWh(s.energyTotal);
    [(AcPower, RealVal(Round1(s.totalPower))), (AcEnergyForward, RealVal(Round1(e)))]
      + PhasesFrom(s, e, 0)
      + [(UpdateIndex, IntVal(NextIndex(index)))]
  }

  /** A cycle's writes split into the totals, the loop, and the index. */
  lemma CycleWritesSplit(s: Snapshot, index: int)
    ensures var ws := CycleWrites(s, index);
      var e := NetEnergyKWh(s.energyTotal);
      && |ws| >= 2
      && ws[..2] == [(AcPower, RealVal(Round1(s.totalPower))), (AcEnergyForward, RealVal(Round1(e)))]
      && ws[2..] == PhasesFrom(s, e, 0) + [(UpdateIndex, IntVal(NextIndex(index)))]
  {
  }

  lemma CycleWritesListed(s: Snapshot, index: int)
    ensures var e := NetEnergyKWh(s.energyTotal);
      CycleWrites(s, index) ==
        [(AcPower, RealVal(Round1(s.totalPower))), (AcEnergyForward, RealVal(Round1(e)))]
        + PhaseWrites(s, e, L1) + PhaseWrites(s, e, L2) + PhaseWrites(s, e, L3)
        + [(UpdateIndex, IntVal(NextIndex(index)))]
  {
    var e := NetEnergyKWh(s.energyTotal);
    assert PhasesFrom(s, e, 0) == PhaseWrites(s, e, L1) + PhaseWrites(s, e, L2) + PhaseWrites(s, e, L3);
  }

  /** The service after one phase's three writes. */
  function WithPhase(m: Service, ph: Phase, c: Value, p: Value, e: Value): Service {
    m[PhaseCurrent(ph) := c][PhasePower(ph) := p][PhaseEnergyForward(ph) := e]
  }

  /** The service after a complete cycle whose values are given. */
  function AfterCycle(m: Service, power: Value, energy: Value, cs: seq<Value>, ps: seq<Value>, es: seq<Value>, index: Value): Service
    requires |cs| == |ps| == |es| == 3
  {
    WithPhase(WithPhase(WithPhase(m[AcPower := power][AcEnergyForward := energy],
      L1, cs[0], ps[0], es[0]), L2, cs[1], ps[1], es[1]), L3, cs[2], ps[2], es[2])[UpdateIndex := index]
  }

  function PhaseNumber(ph: Phase): (k: nat)
    ensures k < |Phases| && Phases[k] == ph
  {
    match ph
    case L1 => 0
    case L2 => 1
    case L3 => 2
  }

  /** What each path holds after such a cycle. */
  lemma AfterCycleLookup(m: Service, power: Value, energy: Value, cs: seq<Value>, ps: seq<Value>, es: seq<Value>, index: Value, ph: Phase)
    requires |cs| == |ps| == |es| == 3
    ensures var r := AfterCycle(m, power, energy, cs, ps, es, index);
      var k := PhaseNumber(ph);
      && AcPower in r && r[AcPower] == power
      && AcEnergyForward in r && r[AcEnergyForward] == energy
      && UpdateIndex in r && r[UpdateIndex] == index
      && PhaseCurrent(ph) in r && r[PhaseCurrent(ph)] == cs[k]
      && PhasePower(ph) in r && r[PhasePower(ph)] == ps[k]
      && PhaseEnergyForward(ph) in r && r[PhaseEnergyForward(ph)] == es[k]
      && (PhaseVoltage(ph) in r <==> PhaseVoltage(ph) in m)
      && (PhaseVoltage(ph) in m ==> r[PhaseVoltage(ph)] == m[PhaseVoltage(ph)])
  {
  }

  /** A complete cycle as a chain of map updates. */
  lemma CycleAsUpdates(m: Service, s: Snapshot, index: int)
    ensures var e := NetEnergyKWh(s.energyTotal);
      ApplyWrites(m, CycleWrites(s, index)) ==
        AfterCycle(m, RealVal(Round1(s.totalPower)), RealVal(Round1(e)),
          [CurrentValue(s, L1), CurrentValue(s, L2), CurrentValue(s, L3)],
          [PowerValue(s, L1), PowerValue(s, L2), PowerValue(s, L3)],
          [EnergyValue(e, L1), EnergyValue(e, L2), EnergyValue(e, L3)],
          IntVal(NextIndex(index)))
  {
    var e := NetEnergyKWh(s.energyTotal);
    var h := [(AcPower, RealVal(Round1(s.totalPower))), (AcEnergyForward, RealVal(Round1(e)))];
    var p1, p2, p3 := PhaseWrites(s, e, L1), PhaseWrites(s, e, L2), PhaseWrites(s, e, L3);
    var u := [(UpdateIndex, IntVal(NextIndex(index)))];
    CycleWritesListed(s, index);
    ApplyWritesAppend(m, h + p1 + p2 + p3, u);
    ApplyWritesAppend(m, h + p1 + p2, p3);
    ApplyWritesAppend(m, h + p1, p2);
    ApplyWritesAppend(m, h, p1);
    ApplyWritesSnoc(m, [], h[0]);
    ApplyWritesSnoc(m, [h[0]], h[1]);
    assert [h[0]] == [] + [h[0]] && h == [h[0]] + [h[1]];
    var m0 := ApplyWrites(m, h);
    ApplyThreeWrites(m0, p1[0], p1[1], p1[2]);
    var m1 := ApplyWrites(m0, p1);
    ApplyThreeWrites(m1, p2[0], p2[1], p2[2]);
    var m2 := ApplyWrites(m1, p2);
    ApplyThreeWrites(m2, p3[0], p3[1], p3[2]);
    var m3 := ApplyWrites(m2, p3);
    ApplyWritesSnoc(m3, [], u[0]);
    assert u == [] + [u[0]];
  }

  /**
   * A complete cycle: every measurement path but the voltages is written with its
   * rounded derived value, and `/UpdateIndex` advances by one modulo 256.
   */
  lemma CycleEffect(m: Service, s: Snapshot, index: int, ph: Phase)
    ensures var r := ApplyWrites(m, CycleWrites(s, index));
      var e := NetEnergyKWh(s.energyTotal);
      && AcPower in r && r[AcPower] == RealVal(Round1(s.totalPower))
      && AcEnergyForward in r && r[AcEnergyForward] == RealVal(Round1(e))
      && UpdateIndex in r && r[UpdateIndex] == IntVal(NextIndex(index))
      && PhaseCurrent(ph) in r && r[PhaseCurrent(ph)] == CurrentValue(s, ph)
      && PhasePower(ph) in r && r[PhasePower(ph)] == PowerValue(s, ph)
      && PhaseEnergyForward(ph) in r && r[PhaseEnergyForward(ph)] == EnergyValue(e, ph)
      && (PhaseVoltage(ph) in r <==> PhaseVoltage(ph) in m)
      && (PhaseVoltage(ph) in m ==> r[PhaseVoltage(ph)] == m[PhaseVoltage(ph)])
  {
    var e := NetEnergyKWh(s.energyTotal);
    var cs := [CurrentValue(s, L1), CurrentValue(s, L2), CurrentValue(s, L3)];
    var ps := [PowerValue(s, L1), PowerValue(s, L2), PowerValue(s, L3)];
    var es := [EnergyValue(e, L1), EnergyValue(e, L2), EnergyValue(e, L3)];
    CycleAsUpdates(m, s, index);
    AfterCycleLookup(m, RealVal(Round1(s.totalPower)), RealVal(Round1(e)), cs, ps, es, IntVal(NextIndex(index)), ph);
    var k := PhaseNumber(ph);
    assert cs[k] == CurrentValue(s, ph) && ps[k] == PowerValue(s, ph) && es[k] == EnergyValue(e, ph);
  }

  class PvInverter {
    /** The DBus service's measurement paths. */
    var service: Service
    /**
     * Bookkeeping of the current cycle: the service when it started, the writes it
     * means to issue, those it has issued, and those not yet attempted.
     */
    ghost var cycleStart: Service
    ghost var planned: seq<Write>
    ghost var issued: seq<Write>
    ghost var remaining: seq<Write>

    ghost predicate Valid()
      reads this
    {
      && (forall p: Path :: p in service)
      && service[UpdateIndex].IntVal? && 0 <= service[UpdateIndex].i < 256
    }

    /** The issued writes explain the service, and the cycle so far agrees with the plan. */
    ghost predicate InCycle(fails: set<Path>)
      reads this
    {
      && service == ApplyWrites(cycleStart, issued)
      && Attempted(planned, fails) == issued + Attempted(remaining, fails)
    }

    /** The current `/UpdateIndex`. */
    function Index(): int
      reads this
      requires Valid()
    {
      service[UpdateIndex].i
    }

    /** `__init__` / `_setup_paths`: the measurement paths with their initial values. */
    constructor ()
      ensures Valid() && service == Registered() && Index() == 0
    {
      service := Registered();
      cycleStart, planned, issued, remaining := service, [], [], [];
    }

    /** `service[path] = v`, the next planned write; it raises (changing nothing) when `path` is in `fails`. */
    method Put(path: Path, v: Value, fails: set<Path>) returns (ok: bool)
      requires Valid() && InCycle(fails)
      requires remaining != [] && remaining[0] == (path, v)
      requires path == UpdateIndex ==> v.IntVal? && 0 <= v.i < 256
      modifies this`service, this`issued, this`remaining
      ensures Valid() && InCycle(fails)
      ensures ok == (path !in fails)
      ensures service == if ok then old(service)[path := v] else old(service)
      ensures ok ==> remaining == old(remaining)[1..]
      ensures !ok ==> Attempted(planned, fails) == issued
    {
      ok := path !in fails;
      if ok {
        assert Attempted(remaining, fails) == [(path, v)] + Attempted(remaining[1..], fails);
        assert issued + ([(path, v)] + Attempted(remaining[1..], fails))
          == (issued + [(path, v)]) + Attempted(remaining[1..], fails);
        ApplyWritesSnoc(cycleStart, issued, (path, v));
        service := service[path := v];
        issued := issued + [(path, v)];
        remaining := remaining[1..];
      } else {
        assert Attempted(remaining, fails) == [];
        assert issued + [] == issued;
      }
    }

    /** One pass of the `for phase` loop. */
    method PublishPhase(data: Snapshot, eKwh: real, phase: Phase, fails: set<Path>) returns (ok: bool)
      requires Valid() && InCycle(fails)
      requires |remaining| >= 3 && remaining[..3] == PhaseWrites(data, eKwh, phase)
      modifies this`service, this`issued, this`remaining
      ensures Valid() && InCycle(fails)
      ensures service[UpdateIndex] == old(service[UpdateIndex])
      ensures ok ==> remaining == old(remaining)[3..]
      ensures !ok ==> Attempted(planned, fails) == issued
    {
      var power := PowerOf(data, phase);
      var current := Round1(CurrentAt(power));
      ok := Put(PhaseCurrent(phase), RealVal(current), fails);
      if !ok { return; }
      ok := Put(PhasePower(phase), RealVal(Round1(power)), fails);
      if !ok { return; }
      ok := Put(PhaseEnergyForward(phase), RealVal(Round1(eKwh * Share(phase))), fails);
    }

    /** The first two writes of `_update`: total power and net energy. */
    method PublishTotals(data: Snapshot, eKwh: real, fails: set<Path>) returns (ok: bool)
      requires Valid() && InCycle(fails)
      requires |remaining| >= 2
      requires remaining[..2] == [(AcPower, RealVal(Round1(data.totalPower))), (AcEnergyForward, RealVal(Round1(eKwh)))]
      modifies this`service, this`issued, this`remaining
      ensures Valid() && InCycle(fails)
      ensures service[UpdateIndex] == old(service[UpdateIndex])
      ensures ok ==> remaining == old(remaining)[2..]
      ensures !ok ==> Attempted(planned, fails) == issued
    {
      ok := Put(AcPower, RealVal(Round1(data.totalPower)), fails);
      if !ok { return; }
      ok := Put(AcEnergyForward, RealVal(Round1(eKwh)), fails);
    }

    /** The `for phase in ['L1', 'L2', 'L3']` loop. */
    method PublishPhases(data: Snapshot, eKwh: real, fails: set<Path>, ghost last: seq<Write>) returns (ok: bool)
      requires Valid() && InCycle(fails)
      requires remaining == PhasesFrom(data, eKwh, 0) + last
      modifies this`service, this`issued, this`remaining
      ensures Valid() && InCycle(fails)
      ensures service[UpdateIndex] == old(service[UpdateIndex])
      ensures ok ==> remaining == last
      ensures !ok ==> Attempted(planned, fails) == issued
    {
      ok := true;
      for k := 0 to |Phases|
        invariant Valid() && InCycle(fails)
        invariant service[UpdateIndex] == old(service[UpdateIndex])
        invariant remaining == PhasesFrom(data, eKwh, k) + last
      {
        PhasesFromStep(data, eKwh, k, last);
        ok := PublishPhase(data, eKwh, Phases[k], fails);
        if !ok { return; }
      }
      assert PhasesFrom(data, eKwh, |Phases|) + last == last;
    }

    /**
     * `_update`: one snapshot, the derived values written phase by phase, then the
     * index advanced. A write that raises skips the rest of the cycle; either way the
     * timer is told to keep running.
     */
    method Update(store: DataStore, fails: set<Path>) returns (keepRunning: bool)
      requires Valid()
      modifies this
      ensures Valid() && keepRunning
      ensures issued == Attempted(CycleWrites(store.Values(), old(Index())), fails)
      ensures service == ApplyWrites(old(service), issued)
    {
      keepRunning := true;
      var data := store.GetAll();
      assert data == store.Values();
      var eKwh := NetEnergyKWh(data.energyTotal);
      ghost var index0 := Index();
      ghost var last := [(UpdateIndex, IntVal(NextIndex(index0)))];
      cycleStart, issued := service, [];
      planned := CycleWrites(data, index0);
      remaining := planned;
      assert Attempted(planned, fails) == issued + Attempted(remaining, fails);
      CycleWritesSplit(data, index0);

      var ok := PublishTotals(data, eKwh, fails);
      if !ok { return; }
      ok := PublishPhases(data, eKwh, fails, last);
      if !ok { return; }

      var index := NextIndex(service[UpdateIndex].i);
      ok := Put(UpdateIndex, IntVal(index), fails);
      assert ok ==> remaining == [];
    }
  }
}
