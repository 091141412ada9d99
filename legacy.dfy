/**
 * The original bridge (`pvinverter_new.py`): the readings live in module globals that
 * `on_message` rebinds, `on_disconnect` reconnects at once and records the outcome in
 * `verbunden`, and `DbusDummyService2._update` writes fourteen paths in sequence and
 * wraps `/UpdateIndex` with an explicit reset. The globals become the fields of one
 * object; the handlers become its methods.
 */
module Legacy {
  import opened Wrappers
  import opened Numeric
  import opened Text
  import opened Sink
  import opened Store
  import opened Derived
  import opened Publisher
  import Ingest
  import Config

  /**
   * The module globals the handlers and the publish cycle share. The phase powers are
   * bound to the int `0` when the module loads and to a float by the first conversion,
   * and `round(pow_l1, 1)` keeps that difference, so they are int-or-float values. The
   * other readings also start as ints, but every use of them (`round(pow_ges)`,
   * `e_total / 10000`) gives the same result for an int as for the equal float.
   */
  datatype Globals = Globals(
    verbunden: int,  // 1 after a successful reconnect, 0 otherwise
    powGes: real,    // W
    eToday: real,    // 0.1 Wh
    eTotal: real,    // 0.1 Wh, cumulative
    powL1: Value,    // W
    powL2: Value,    // W
    powL3: Value)    // W

  /** The number a Python int or float stands for. */
  function AsReal(v: Value): real {
    match v
    case IntVal(i) => i as real
    case RealVal(r) => r
  }

  /** The phase power global of one phase. */
  function PhaseGlobal(g: Globals, ph: Phase): Value {
    match ph
    case L1 => g.powL1
    case L2 => g.powL2
    case L3 => g.powL3
  }

  /**
   * The values the module binds when it is loaded: read as numbers they are the
   * refactored store's seed, and the phase powers are still ints.
   */
  function InitialGlobals(): (g: Globals)
    ensures AsSnapshot(g) == Initial()
    ensures g.powL1.IntVal? && g.powL2.IntVal? && g.powL3.IntVal?
  {
    Globals(0, 0.0, 0.0, Config.InitialEnergyTotal, IntVal(0), IntVal(0), IntVal(0))
  }

  /** The globals after a handler, and whether the handler raised. */
  datatype Handled = Handled(globals: Globals, raised: bool)

  /**
   * `on_message` on the globals: no strip, exact topic equality, and no exception
   * handling. The three-way unpacking of the phase payload raises before any phase is
   * assigned; a conversion that raises stops the assignments after it.
   */
  function Dispatch(g: Globals, topic: string, msg: string, parse: RealParser): (h: Handled)
    ensures h.globals.verbunden == g.verbunden
    ensures topic != Config.PowerTopic ==> h.globals.powGes == g.powGes
    ensures topic != Config.TodayTopic ==> h.globals.eToday == g.eToday
    ensures topic != Config.TotalTopic ==> h.globals.eTotal == g.eTotal
    ensures topic != Config.PhasesTopic ==>
      h.globals.powL1 == g.powL1 && h.globals.powL2 == g.powL2 && h.globals.powL3 == g.powL3
    ensures !Config.IsKnownTopic(topic) ==> h == Handled(g, false)
    ensures topic == Config.PowerTopic || topic == Config.TodayTopic || topic == Config.TotalTopic ==>
      (h.raised <==> parse(msg).None?) && (h.raised ==> h.globals == g)
  {
    if topic == Config.PowerTopic then
      (match parse(msg) case None => Handled(g, true) case Some(v) => Handled(g.(powGes := v), false))
    else if topic == Config.TodayTopic then
      (match parse(msg) case None => Handled(g, true) case Some(v) => Handled(g.(eToday := v), false))
    else if topic == Config.TotalTopic then
      (match parse(msg) case None => Handled(g, true) case Some(v) => Handled(g.(eTotal := v), false))
    else if topic == Config.PhasesTopic then
      var parts := Split(msg, ',');
      if |parts| != 3 then Handled(g, true)
      else
        match parse(parts[0])
        case None => Handled(g, true)
        case Some(a) =>
          var g1 := g.(powL1 := RealVal(a));
          match parse(parts[1])
          case None => Handled(g1, true)
          case Some(b) =>
            var g2 := g1.(powL2 := RealVal(b));
            match parse(parts[2])
            case None => Handled(g2, true)
            case Some(c) => Handled(g2.(powL3 := RealVal(c)), false)
    else
      Handled(g, false)
  }

  /** A phase payload without exactly two commas raises before any phase power is assigned. */
  lemma UnpackFailsFirst(g: Globals, msg: string, parse: RealParser)
    requires Count(msg, ',') != 2
    ensures Dispatch(g, Config.PhasesTopic, msg, parse) == Handled(g, true)
  {
    SplitCount(msg, ',');
  }

  /**
   * A phase payload `a,b,c` assigns the phases one after the other: the handler raises
   * exactly when a part fails to convert, and the parts before it are already assigned.
   */
  lemma PhaseAssignments(g: Globals, a: string, b: string, c: string, parse: RealParser)
    requires ',' !in a && ',' !in b && ',' !in c
    ensures var h := Dispatch(g, Config.PhasesTopic, a + "," + b + "," + c, parse);
      && (h.raised <==> parse(a).None? || parse(b).None? || parse(c).None?)
      && h.globals.powL1 == (if parse(a).Some? then RealVal(parse(a).value) else g.powL1)
      && h.globals.powL2 == (if parse(a).Some? && parse(b).Some? then RealVal(parse(b).value) else g.powL2)
      && h.globals.powL3 == (if !h.raised then RealVal(parse(c).value) else g.powL3)
  {
    JoinThree(a, b, c, ',');
    SplitJoin([a, b, c], ',');
  }

  /** The readings the globals hold, seen as the refactored store's snapshot. */
  function AsSnapshot(g: Globals): (s: Snapshot)
    ensures s.connected <==> g.verbunden == 1
  {
    Snapshot(g.powGes, g.eToday, g.eTotal, AsReal(g.powL1), AsReal(g.powL2), AsReal(g.powL3), g.verbunden == 1)
  }

  /**
   * On a payload without surrounding whitespace, the two variants' message handlers
   * leave the same readings behind, whether or not the original raises.
   */
  lemma {:induction false} HandlersAgree(g: Globals, topic: string, payload: string, parse: RealParser)
    requires IsTrimmed(payload)
    ensures var s := Ingest.ApplyMessage(AsSnapshot(g), topic, payload, parse);
      s == AsSnapshot(Dispatch(g, topic, payload, parse).globals)
  {
    assert Strip(payload) == payload;
  }

  /**
   * Python's `float` ignores whitespace around the number: a whitespace character in
   * front of or after the text does not change what it converts to, or whether it raises.
   */
  ghost predicate IgnoresSurroundingSpace(parse: RealParser) {
    && (forall c: char, t: string {:trigger parse([c] + t)} :: IsSpace(c) ==> parse([c] + t) == parse(t))
    && (forall c: char, t: string {:trigger parse(t + [c])} :: IsSpace(c) ==> parse(t + [c]) == parse(t))
  }

  lemma {:induction false} LeadingSpaceIgnored(parse: RealParser, w: string, t: string)
    requires IgnoresSurroundingSpace(parse) && AllSpace(w)
    ensures parse(w + t) == parse(t)
    decreases |w|
  {
    if w == [] {
      assert w + t == t;
    } else {
      assert w + t == [w[0]] + (w[1..] + t);
      LeadingSpaceIgnored(parse, w[1..], t);
    }
  }

  lemma {:induction false} TrailingSpaceIgnored(parse: RealParser, t: string, w: string)
    requires IgnoresSurroundingSpace(parse) && AllSpace(w)
    ensures parse(t + w) == parse(t)
    decreases |w|
  {
    if w == [] {
      assert t + w == t;
    } else {
      var init := w[..|w| - 1];
      assert t + w == (t + init) + [w[|w| - 1]];
      TrailingSpaceIgnored(parse, t, init);
    }
  }

  /** The whitespace `strip()` removes does not change what a payload converts to. */
  lemma StripIgnored(parse: RealParser, payload: string)
    requires IgnoresSurroundingSpace(parse)
    ensures parse(payload) == parse(Strip(payload))
  {
    var lead, trail := StripSurround(payload);
    var x := Strip(payload);
    LeadingSpaceIgnored(parse, lead, x + trail);
    TrailingSpaceIgnored(parse, x, trail);
  }

  /**
   * Splitting the raw payload or the stripped one gives the same number of pieces, and
   * three pieces that convert alike.
   */
  lemma StrippedPiecesAgree(payload: string, parse: RealParser)
    requires IgnoresSurroundingSpace(parse)
    ensures var raw := Split(payload, ',');
      var stripped := Split(Strip(payload), ',');
      && |raw| == |stripped|
      && (|raw| == 3 ==>
            parse(raw[0]) == parse(stripped[0]) && parse(raw[1]) == parse(stripped[1])
            && parse(raw[2]) == parse(stripped[2]))
  {
    var lead, trail := StripSurround(payload);
    var x := Strip(payload);
    assert !IsSpace(',');
    assert ',' !in lead && ',' !in trail;
    SplitCountSurrounded(lead, x, trail, ',');
    var p := Split(x, ',');
    if |p| == 3 {
      SplitThreeSurrounded(lead, x, trail, ',');
      LeadingSpaceIgnored(parse, lead, p[0]);
      TrailingSpaceIgnored(parse, p[2], trail);
    }
  }

  /**
   * With a `float` that ignores surrounding whitespace, the refactored handler's
   * `strip()` makes no difference: on every topic and payload the two variants' message
   * handlers leave the same readings behind.
   */
  lemma HandlersAgreeOnReadings(g: Globals, topic: string, payload: string, parse: RealParser)
    requires IgnoresSurroundingSpace(parse)
    ensures var s := Ingest.ApplyMessage(AsSnapshot(g), topic, payload, parse);
      s == AsSnapshot(Dispatch(g, topic, payload, parse).globals)
  {
    StripIgnored(parse, payload);
    StrippedPiecesAgree(payload, parse);
  }

  /** The module globals, with `on_message` and `on_disconnect` as the code that rebinds them. */
  class Bridge {
    var verbunden: int
    var powGes: real
    var eToday: real
    var eTotal: real
    var powL1: Value
    var powL2: Value
    var powL3: Value

    function State(): Globals
      reads this
    {
      Globals(verbunden, powGes, eToday, eTotal, powL1, powL2, powL3)
    }

    /** Loading the module binds the globals' initial values. */
    constructor ()
      ensures State() == InitialGlobals()
    {
      verbunden := 0;
      powGes, eToday, eTotal := 0.0, 0.0, Config.InitialEnergyTotal;
      powL1, powL2, powL3 := IntVal(0), IntVal(0), IntVal(0);
    }

    /** `on_message(client, userdata, message)`; `raised` says whether it raised to the transport. */
    method OnMessage(topic: string, msg: string, parse: RealParser) returns (raised: bool)
      modifies this
      ensures Handled(State(), raised) == Dispatch(old(State()), topic, msg, parse)
    {
      raised := false;
      if topic == Config.PowerTopic {
        var v := parse(msg);
        if v.None? { return true; }
        powGes := v.value;
      } else if topic == Config.TodayTopic {
        var v := parse(msg);
        if v.None? { return true; }
        eToday := v.value;
      } else if topic == Config.TotalTopic {
        var v := parse(msg);
        if v.None? { return true; }
        eTotal := v.value;
      } else if topic == Config.PhasesTopic {
        var parts := Split(msg, ',');
        if |parts| != 3 { return true; }
        var a := parse(parts[0]);
        if a.None? { return true; }
        powL1 := RealVal(a.value);
        var b := parse(parts[1]);
        if b.None? { return true; }
        powL2 := RealVal(b.value);
        var c := parse(parts[2]);
        if c.None? { return true; }
        powL3 := RealVal(c.value);
      }
    }

    /**
     * `on_disconnect(client, userdata, rc)`: whatever `rc` is, reconnect at once;
     * `connectRaised` says whether `client.connect` raised. No delay, no back-off.
     */
    method OnDisconnect(rc: int, connectRaised: bool)
      modifies this
      ensures State() == old(State()).(verbunden := if connectRaised then 0 else 1)
    {
      if connectRaised {
        verbunden := 0;
      } else {
        verbunden := 1;
      }
    }
  }

  /** `index = service['/UpdateIndex'] + 1`, reset to 0 when it passes 255. */
  function WrapIndex(i: int): (r: int)
    ensures r < Config.IndexModulus
    ensures 0 <= i ==> 0 <= r
    ensures 0 <= i < Config.IndexModulus ==> r == NextIndex(i)
    ensures i < -1 ==> r < 0
  {
    var index := i + 1;
    if index > 255 then 0 else index
  }

  /** Starting in range, the index stays in range after any number of cycles. */
  function WrapIndexAfter(i: int, n: nat): (r: int)
    requires 0 <= i < Config.IndexModulus
    ensures 0 <= r < Config.IndexModulus
    ensures r == IndexAfter(i, n)
  {
    if n == 0 then i else WrapIndex(WrapIndexAfter(i, n - 1))
  }

  /** The paths `main` registers: every path, each with initial value 0. */
  function LegacyRegistered(): (m: Service)
    ensures forall p: Path :: p in m && m[p] == IntVal(0)
  {
    var m := map[
      AcPower := IntVal(0), AcEnergyForward := IntVal(0),
      PhaseVoltage(L1) := IntVal(0), PhaseVoltage(L2) := IntVal(0), PhaseVoltage(L3) := IntVal(0),
      PhaseCurrent(L1) := IntVal(0), PhaseCurrent(L2) := IntVal(0), PhaseCurrent(L3) := IntVal(0),
      PhasePower(L1) := IntVal(0), PhasePower(L2) := IntVal(0), PhasePower(L3) := IntVal(0),
      PhaseEnergyForward(L1) := IntVal(0), PhaseEnergyForward(L2) := IntVal(0), PhaseEnergyForward(L3) := IntVal(0),
      UpdateIndex := IntVal(0)];
    assert forall p: Path :: p in m && m[p] == IntVal(0) by {
      forall p: Path ensures p in m && m[p] == IntVal(0) {
        PathCases(p);
      }
    }
    m
  }

  /** Both variants register the same paths; only the voltages start differently. */
  lemma RegistrationsDiffer(p: Path)
    ensures p in LegacyRegistered() && p in Registered()
    ensures p.PhaseVoltage? ==> LegacyRegistered()[p] == IntVal(0) && Registered()[p] == IntVal(Config.NominalVoltage)
    ensures !p.PhaseVoltage? ==> LegacyRegistered()[p] == Registered()[p]
  {
  }

  /**
   * Python's `round(v, 1)` on an int or a float: numerically `round(x, 1)`, and an
   * int stays the same int.
   */
  function RoundTenth(v: Value): (r: Value)
    ensures r.IntVal? <==> v.IntVal?
    ensures v.IntVal? ==> r == v
    ensures AsReal(r) == Round1(AsReal(v))
  {
    match v
    case IntVal(i) =>
      assert HasOneDecimal(i as real) by {
        assert (i as real * 10.0).Floor == i * 10;
      }
      Round1Exact(i as real);
      v
    case RealVal(x) => RealVal(Round1(x))
  }

  /** The fourteen writes of `_update` and the index, in order, with the values given. */
  function LegacyList(energy: Value, volt: Value, es: seq<Value>, cs: seq<Value>, ps: seq<Value>,
                      power: Value, index: Value): (ws: seq<Write>)
    requires |es| == |cs| == |ps| == 3
    ensures |ws| == 15 && ws[14] == (UpdateIndex, index)
  {
    [(AcEnergyForward, energy)]
    + [(PhaseVoltage(L1), volt), (PhaseVoltage(L2), volt), (PhaseVoltage(L3), volt)]
    + [(PhaseEnergyForward(L1), es[0]), (PhaseEnergyForward(L2), es[1]), (PhaseEnergyForward(L3), es[2])]
    + [(PhaseCurrent(L1), cs[0]), (PhaseCurrent(L2), cs[1]), (PhaseCurrent(L3), cs[2])]
    + [(PhasePower(L1), ps[0]), (PhasePower(L2), ps[1]), (PhasePower(L3), ps[2])]
    + [(AcPower, power), (UpdateIndex, index)]
  }

  /**
   * The writes of `_update` on globals `g` with `/UpdateIndex` at `index`: fifteen
   * assignments, the last of which wraps the index.
   */
  function LegacyWrites(g: Globals, index: int): (ws: seq<Write>)
    ensures |ws| == 15 && ws[14] == (UpdateIndex, IntVal(WrapIndex(index)))
  {
    var s := AsSnapshot(g);
    var e := NetEnergyKWh(g.eTotal);
    LegacyList(RealVal(Round1(e)), IntVal(Config.NominalVoltage),
      [EnergyValue(e, L1), EnergyValue(e, L2), EnergyValue(e, L3)],
      [CurrentValue(s, L1), CurrentValue(s, L2), CurrentValue(s, L3)],
      [RoundTenth(g.powL1), RoundTenth(g.powL2), RoundTenth(g.powL3)],
      IntVal(RoundHalfEven(g.powGes)), IntVal(WrapIndex(index)))
  }

  /** The service after a legacy cycle whose values are given, as map updates in write order. */
  function AfterLegacyCycle(m: Service, energy: Value, volt: Value, es: seq<Value>, cs: seq<Value>, ps: seq<Value>,
                            power: Value, index: Value): Service
    requires |es| == |cs| == |ps| == 3
  {
    m[AcEnergyForward := energy]
     [PhaseVoltage(L1) := volt][PhaseVoltage(L2) := volt][PhaseVoltage(L3) := volt]
     [PhaseEnergyForward(L1) := es[0]][PhaseEnergyForward(L2) := es[1]][PhaseEnergyForward(L3) := es[2]]
     [PhaseCurrent(L1) := cs[0]][PhaseCurrent(L2) := cs[1]][PhaseCurrent(L3) := cs[2]]
     [PhasePower(L1) := ps[0]][PhasePower(L2) := ps[1]][PhasePower(L3) := ps[2]]
     [AcPower := power][UpdateIndex := index]
  }

  /** What each path holds after such a cycle. */
  lemma AfterLegacyCycleLookup(m: Service, energy: Value, volt: Value, es: seq<Value>, cs: seq<Value>, ps: seq<Value>,
                               power: Value, index: Value, ph: Phase)
    requires |es| == |cs| == |ps| == 3
    ensures var r := AfterLegacyCycle(m, energy, volt, es, cs, ps, power, index);
      var k := PhaseNumber(ph);
      && (forall p: Path :: p in r)
      && r[AcPower] == power && r[AcEnergyForward] == energy && r[UpdateIndex] == index
      && r[PhaseVoltage(ph)] == volt && r[PhaseCurrent(ph)] == cs[k]
      && r[PhasePower(ph)] == ps[k] && r[PhaseEnergyForward(ph)] == es[k]
  {
    var r := AfterLegacyCycle(m, energy, volt, es, cs, ps, power, index);
    forall p: Path ensures p in r {
      assert p.PhaseVoltage? || p.PhaseCurrent? || p.PhasePower? || p.PhaseEnergyForward? ==>
        p.phase == L1 || p.phase == L2 || p.phase == L3;
    }
  }

  /** The fifteen writes, whatever their values, as a chain of map updates. */
  lemma LegacyListAsUpdates(m: Service, energy: Value, volt: Value, es: seq<Value>, cs: seq<Value>, ps: seq<Value>,
                            power: Value, index: Value)
    requires |es| == |cs| == |ps| == 3
    ensures ApplyWrites(m, LegacyList(energy, volt, es, cs, ps, power, index))
      == AfterLegacyCycle(m, energy, volt, es, cs, ps, power, index)
  {
    var w0 := [(AcEnergyForward, energy)];
    var w1 := [(PhaseVoltage(L1), volt), (PhaseVoltage(L2), volt), (PhaseVoltage(L3), volt)];
    var w2 := [(PhaseEnergyForward(L1), es[0]), (PhaseEnergyForward(L2), es[1]), (PhaseEnergyForward(L3), es[2])];
    var w3 := [(PhaseCurrent(L1), cs[0]), (PhaseCurrent(L2), cs[1]), (PhaseCurrent(L3), cs[2])];
    var w4 := [(PhasePower(L1), ps[0]), (PhasePower(L2), ps[1]), (PhasePower(L3), ps[2])];
    var w5 := [(AcPower, power), (UpdateIndex, index)];
    assert LegacyList(energy, volt, es, cs, ps, power, index) == w0 + w1 + w2 + w3 + w4 + w5;
    ApplyWritesAppend(m, w0 + w1 + w2 + w3 + w4, w5);
    ApplyWritesAppend(m, w0 + w1 + w2 + w3, w4);
    ApplyWritesAppend(m, w0 + w1 + w2, w3);
    ApplyWritesAppend(m, w0 + w1, w2);
    ApplyWritesAppend(m, w0, w1);
    ApplyWritesSnoc(m, [], w0[0]);
    assert w0 == [] + [w0[0]];
    var m0 := ApplyWrites(m, w0);
    ApplyThreeWrites(m0, w1[0], w1[1], w1[2]);
    var m1 := ApplyWrites(m0, w1);
    ApplyThreeWrites(m1, w2[0], w2[1], w2[2]);
    var m2 := ApplyWrites(m1, w2);
    ApplyThreeWrites(m2, w3[0], w3[1], w3[2]);
    var m3 := ApplyWrites(m2, w3);
    ApplyThreeWrites(m3, w4[0], w4[1], w4[2]);
    var m4 := ApplyWrites(m3, w4);
    ApplyWritesSnoc(m4, [], w5[0]);
    ApplyWritesSnoc(m4, [w5[0]], w5[1]);
    assert [w5[0]] == [] + [w5[0]] && w5 == [w5[0]] + [w5[1]];
  }

  /** A legacy cycle as a chain of map updates. */
  lemma LegacyAsUpdates(m: Service, g: Globals, index: int)
    ensures var s := AsSnapshot(g);
      var e := NetEnergyKWh(g.eTotal);
      ApplyWrites(m, LegacyWrites(g, index)) ==
        AfterLegacyCycle(m, RealVal(Round1(e)), IntVal(Config.NominalVoltage),
          [EnergyValue(e, L1), EnergyValue(e, L2), EnergyValue(e, L3)],
          [CurrentValue(s, L1), CurrentValue(s, L2), CurrentValue(s, L3)],
          [RoundTenth(g.powL1), RoundTenth(g.powL2), RoundTenth(g.powL3)],
          IntVal(RoundHalfEven(g.powGes)), IntVal(WrapIndex(index)))
  {
    var s := AsSnapshot(g);
    var e := NetEnergyKWh(g.eTotal);
    LegacyListAsUpdates(m, RealVal(Round1(e)), IntVal(Config.NominalVoltage),
      [EnergyValue(e, L1), EnergyValue(e, L2), EnergyValue(e, L3)],
      [CurrentValue(s, L1), CurrentValue(s, L2), CurrentValue(s, L3)],
      [RoundTenth(g.powL1), RoundTenth(g.powL2), RoundTenth(g.powL3)],
      IntVal(RoundHalfEven(g.powGes)), IntVal(WrapIndex(index)));
  }

  /**
   * A legacy cycle writes every measurement path: 230 V on each phase, the same
   * rounded currents, powers and energies as the refactored cycle, `/Ac/Power` rounded
   * to a whole number, and the wrapped index.
   */
  lemma LegacyCycleEffect(m: Service, g: Globals, index: int, ph: Phase)
    ensures var r := ApplyWrites(m, LegacyWrites(g, index));
      var e := NetEnergyKWh(g.eTotal);
      && (forall p: Path :: p in r)
      && r[AcPower] == IntVal(RoundHalfEven(g.powGes))
      && r[AcEnergyForward] == RealVal(Round1(e))
      && r[UpdateIndex] == IntVal(WrapIndex(index))
      && r[PhaseVoltage(ph)] == IntVal(Config.NominalVoltage)
      && r[PhaseCurrent(ph)] == CurrentValue(AsSnapshot(g), ph)
      && r[PhasePower(ph)] == RoundTenth(PhaseGlobal(g, ph))
      && r[PhaseEnergyForward(ph)] == EnergyValue(e, ph)
  {
    var s := AsSnapshot(g);
    var e := NetEnergyKWh(g.eTotal);
    var es := [EnergyValue(e, L1), EnergyValue(e, L2), EnergyValue(e, L3)];
    var cs := [CurrentValue(s, L1), CurrentValue(s, L2), CurrentValue(s, L3)];
    var ps := [RoundTenth(g.powL1), RoundTenth(g.powL2), RoundTenth(g.powL3)];
    LegacyAsUpdates(m, g, index);
    AfterLegacyCycleLookup(m, RealVal(Round1(e)), IntVal(Config.NominalVoltage), es, cs, ps,
      IntVal(RoundHalfEven(g.powGes)), IntVal(WrapIndex(index)), ph);
    var k := PhaseNumber(ph);
    assert cs[k] == CurrentValue(s, ph) && ps[k] == RoundTenth(PhaseGlobal(g, ph)) && es[k] == EnergyValue(e, ph);
  }

  /**
   * From the same readings and an in-range index, the two variants' cycles leave the
   * same number on every path but `/Ac/Power` (whole number against one decimal) and the
   * voltages (the refactored cycle leaves them as registered). The values are the same
   * too, except on the power of a phase whose global is still the initial int.
   */
  lemma CyclesAgree(m: Service, g: Globals, index: int, p: Path)
    requires 0 <= index < Config.IndexModulus
    requires p != AcPower && !p.PhaseVoltage?
    ensures var legacy := ApplyWrites(m, LegacyWrites(g, index));
      var refactored := ApplyWrites(m, CycleWrites(AsSnapshot(g), index));
      && p in legacy && p in refactored
      && AsReal(legacy[p]) == AsReal(refactored[p])
      && (!p.PhasePower? || PhaseGlobal(g, p.phase).RealVal? ==> legacy[p] == refactored[p])
  {
    var ph := if p.PhaseCurrent? || p.PhasePower? || p.PhaseEnergyForward? then p.phase else L1;
    LegacyCycleEffect(m, g, index, ph);
    CycleEffect(m, AsSnapshot(g), index, ph);
    assert AsReal(PhaseGlobal(g, ph)) == PowerOf(AsSnapshot(g), ph);
  }

  /**
   * Until a phase payload converts, the first cycles publish each phase power as the
   * int `0`, where the refactored bridge publishes the float `0.0`.
   */
  lemma FirstCyclePowersAreInts(m: Service, index: int, ph: Phase)
    ensures var legacy := ApplyWrites(m, LegacyWrites(InitialGlobals(), index));
      PhasePower(ph) in legacy && legacy[PhasePower(ph)] == IntVal(0)
    ensures var refactored := ApplyWrites(m, CycleWrites(Initial(), index));
      PhasePower(ph) in refactored && refactored[PhasePower(ph)] == RealVal(0.0)
  {
    LegacyCycleEffect(m, InitialGlobals(), index, ph);
    CycleEffect(m, Initial(), index, ph);
    Round1Exact(0.0);
  }

  /** `DbusDummyService2`: the service it registers and the periodic `_update`. */
  class DummyService {
    var service: Service

    ghost predicate Valid()
      reads this
    {
      (forall p: Path :: p in service) && service[UpdateIndex].IntVal?
    }

    /** `__init__` with the paths `main` passes. */
    constructor ()
      ensures Valid() && service == LegacyRegistered()
    {
      service := LegacyRegistered();
    }

    /**
     * `_update`: reads the globals, assigns the fourteen paths in sequence, wraps the
     * index and returns True, so the timer keeps firing.
     */
    method Update(globals: Bridge) returns (keepRunning: bool)
      requires Valid()
      modifies this
      ensures Valid() && keepRunning
      ensures service == ApplyWrites(old(service), LegacyWrites(globals.State(), old(service[UpdateIndex].i)))
    {
      ghost var m := service;
      var s := AsSnapshot(globals.State());
      var eTotKWh := NetEnergyKWh(globals.eTotal);
      var volt := IntVal(Config.NominalVoltage);
      var e1, e2, e3 := EnergyValue(eTotKWh, L1), EnergyValue(eTotKWh, L2), EnergyValue(eTotKWh, L3);
      var c1, c2, c3 := CurrentValue(s, L1), CurrentValue(s, L2), CurrentValue(s, L3);
      var p1, p2, p3 := RoundTenth(globals.powL1), RoundTenth(globals.powL2), RoundTenth(globals.powL3);
      service := service[AcEnergyForward := RealVal(Round1(eTotKWh))];
      service := service[PhaseVoltage(L1) := volt][PhaseVoltage(L2) := volt][PhaseVoltage(L3) := volt];
      service := service[PhaseEnergyForward(L1) := e1][PhaseEnergyForward(L2) := e2][PhaseEnergyForward(L3) := e3];
      service := service[PhaseCurrent(L1) := c1][PhaseCurrent(L2) := c2][PhaseCurrent(L3) := c3];
      service := service[PhasePower(L1) := p1][PhasePower(L2) := p2][PhasePower(L3) := p3];
      service := service[AcPower := IntVal(RoundHalfEven(globals.powGes))];
      assert service[UpdateIndex] == m[UpdateIndex];
      var index := service[UpdateIndex].i + 1;
      if index > 255 {
        index := 0;
      }
      service := service[UpdateIndex := IntVal(index)];
      LegacyAsUpdates(m, globals.State(), m[UpdateIndex].i);
      assert service == AfterLegacyCycle(m, RealVal(Round1(eTotKWh)), volt, [e1, e2, e3], [c1, c2, c3], [p1, p2, p3],
        IntVal(RoundHalfEven(globals.powGes)), IntVal(WrapIndex(m[UpdateIndex].i)));
      keepRunning := true;
    }
  }
}
