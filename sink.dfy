/**
 * The downstream DBus service as a map from object path to value, the sequence of
 * writes a publish cycle issues to it, and the wrapping revision counter
 * `/UpdateIndex`.
 */
module Sink {
  import Config

  datatype Phase = L1 | L2 | L3

  /** The three phases in the order both variants publish them. */
  const Phases: seq<Phase> := [L1, L2, L3]

  /** The measurement paths of the service. */
  datatype Path =
    | AcPower
    | AcEnergyForward
    | PhaseVoltage(phase: Phase)
    | PhaseCurrent(phase: Phase)
    | PhasePower(phase: Phase)
    | PhaseEnergyForward(phase: Phase)
    | UpdateIndex

  /** The fifteen measurement paths, one by one. */
  lemma PathCases(p: Path)
    ensures || p == AcPower || p == AcEnergyForward || p == UpdateIndex
            || p == PhaseVoltage(L1) || p == PhaseVoltage(L2) || p == PhaseVoltage(L3)
            || p == PhaseCurrent(L1) || p == PhaseCurrent(L2) || p == PhaseCurrent(L3)
            || p == PhasePower(L1) || p == PhasePower(L2) || p == PhasePower(L3)
            || p == PhaseEnergyForward(L1) || p == PhaseEnergyForward(L2) || p == PhaseEnergyForward(L3)
  {
    match p
    case PhaseVoltage(ph) => assert ph == L1 || ph == L2 || ph == L3;
    case PhaseCurrent(ph) => assert ph == L1 || ph == L2 || ph == L3;
    case PhasePower(ph) => assert ph == L1 || ph == L2 || ph == L3;
    case PhaseEnergyForward(ph) => assert ph == L1 || ph == L2 || ph == L3;
    case _ =>
  }

  function PhaseName(p: Phase): string {
    match p
    case L1 => "L1"
    case L2 => "L2"
    case L3 => "L3"
  }

  /** The DBus object path of each modelled path. */
  function Name(p: Path): string {
    match p
    case AcPower => "/Ac/Power"
    case AcEnergyForward => "/Ac/Energy/Forward"
    case PhaseVoltage(ph) => "/Ac/" + PhaseName(ph) + "/Voltage"
    case PhaseCurrent(ph) => "/Ac/" + PhaseName(ph) + "/Current"
    case PhasePower(ph) => "/Ac/" + PhaseName(ph) + "/Power"
    case PhaseEnergyForward(ph) => "/Ac/" + PhaseName(ph) + "/Energy/Forward"
    case UpdateIndex => "/UpdateIndex"
  }

  /** Distinct paths are distinct DBus object paths, so a write names exactly one of them. */
  lemma NamesDistinct(p: Path, q: Path)
    ensures Name(p) == Name(q) <==> p == q
  {
    if Name(p) == Name(q) {
      PathCases(p);
      PathCases(q);
      assert |Name(p)| == |Name(q)| && Name(p)[1] == Name(q)[1];
      assert Name(p)[5] == Name(q)[5] && Name(p)[7] == Name(q)[7];
    }
  }

  /** A value held by the service: Python `int` or `float`. */
  datatype Value = IntVal(i: int) | RealVal(r: real)

  type Service = map<Path, Value>

  /** One `service[path] = value` assignment. */
  type Write = (Path, Value)

  function PathsOf(ws: seq<Write>): set<Path> {
    set i | 0 <= i < |ws| :: ws[i].0
  }

  /**
   * The service after the writes `ws`, issued in order: the last assignment's path
   * holds its value.
   */
  function ApplyWrites(m: Service, ws: seq<Write>): (r: Service)
    ensures ws != [] ==> ws[|ws| - 1].0 in r && r[ws[|ws| - 1].0] == ws[|ws| - 1].1
    decreases |ws|
  {
    if ws == [] then m
    else ApplyWrites(m, ws[..|ws| - 1])[ws[|ws| - 1].0 := ws[|ws| - 1].1]
  }

  /** Writes add paths and leave every path they do not name as it was. */
  lemma {:induction false} ApplyWritesFrame(m: Service, ws: seq<Write>, p: Path)
    ensures p in ApplyWrites(m, ws) <==> p in m || p in PathsOf(ws)
    ensures p in m && p !in PathsOf(ws) ==> ApplyWrites(m, ws)[p] == m[p]
    decreases |ws|
  {
    if ws != [] {
      var init := ws[..|ws| - 1];
      assert PathsOf(ws) == PathsOf(init) + {ws[|ws| - 1].0} by {
        assert forall j :: 0 <= j < |init| ==> init[j] == ws[j];
      }
      ApplyWritesFrame(m, init, p);
    }
  }

  /** The last write to a path is the value the path ends up with. */
  lemma {:induction false} ApplyWritesLastWins(m: Service, ws: seq<Write>, i: nat)
    requires i < |ws|
    requires forall j :: i < j < |ws| ==> ws[j].0 != ws[i].0
    ensures ws[i].0 in ApplyWrites(m, ws) && ApplyWrites(m, ws)[ws[i].0] == ws[i].1
    decreases |ws|
  {
    if i < |ws| - 1 {
      var init := ws[..|ws| - 1];
      assert init[i] == ws[i];
      ApplyWritesLastWins(m, init, i);
    }
  }

  /** Issuing one more write updates one more path. */
  lemma ApplyWritesSnoc(m: Service, ws: seq<Write>, w: Write)
    ensures ApplyWrites(m, ws + [w]) == ApplyWrites(m, ws)[w.0 := w.1]
  {
    assert (ws + [w])[..|ws|] == ws;
  }

  /** Issuing `a` then `b` is issuing `a + b`. */
  lemma {:induction false} ApplyWritesAppend(m: Service, a: seq<Write>, b: seq<Write>)
    ensures ApplyWrites(m, a + b) == ApplyWrites(ApplyWrites(m, a), b)
    decreases |b|
  {
    if b != [] {
      var init, last := b[..|b| - 1], b[|b| - 1];
      assert b == init + [last];
      assert a + b == (a + init) + [last];
      calc {
        ApplyWrites(m, a + b);
        ApplyWrites(m, (a + init) + [last]);
        { ApplyWritesSnoc(m, a + init, last); }
        ApplyWrites(m, a + init)[last.0 := last.1];
        { ApplyWritesAppend(m, a, init); }
        ApplyWrites(ApplyWrites(m, a), init)[last.0 := last.1];
        { ApplyWritesSnoc(ApplyWrites(m, a), init, last); }
        ApplyWrites(ApplyWrites(m, a), init + [last]);
      }
    } else {
      assert a + b == a;
    }
  }

  /** Three writes to a service, spelled out. */
  lemma ApplyThreeWrites(m: Service, x: Write, y: Write, z: Write)
    ensures ApplyWrites(m, [x, y, z]) == m[x.0 := x.1][y.0 := y.1][z.0 := z.1]
  {
    ApplyWritesSnoc(m, [], x);
    ApplyWritesSnoc(m, [x], y);
    ApplyWritesSnoc(m, [x, y], z);
    assert [x] == [] + [x] && [x, y] == [x] + [y] && [x, y, z] == [x, y] + [z];
  }

  /**
   * The writes a cycle gets through when a write to a path in `fails` raises: the
   * longest prefix of `ws` that stops before the first failing path.
   */
  function Attempted(ws: seq<Write>, fails: set<Path>): (r: seq<Write>)
    ensures |r| <= |ws| && r == ws[..|r|]
    ensures forall i :: 0 <= i < |r| ==> ws[i].0 !in fails
    ensures |r| < |ws| ==> ws[|r|].0 in fails
  {
    if ws == [] || ws[0].0 in fails then [] else [ws[0]] + Attempted(ws[1..], fails)
  }

  /** A cycle no write of which fails issues all its writes. */
  lemma {:induction false} AttemptedAll(ws: seq<Write>, fails: set<Path>)
    requires PathsOf(ws) !! fails
    ensures Attempted(ws, fails) == ws
  {
  }

  /** The revision counter after one publish: `(i + 1) % 256`. */
  function NextIndex(i: int): (r: int)
    ensures 0 <= r < Config.IndexModulus
    ensures 0 <= i < Config.IndexModulus - 1 ==> r == i + 1
    ensures i == Config.IndexModulus - 1 ==> r == 0
  {
    (i + 1) % Config.IndexModulus
  }

  /** The revision counter after `n` publishes starting from `i`. */
  function IndexAfter(i: int, n: nat): (r: int)
    ensures n > 0 || 0 <= i < Config.IndexModulus ==> 0 <= r < Config.IndexModulus
  {
    if n == 0 then i else NextIndex(IndexAfter(i, n - 1))
  }

  /** Counting up from `x` modulo 256 is counting up from `x % 256`. */
  lemma ModSucc(x: nat)
    ensures (x % Config.IndexModulus + 1) % Config.IndexModulus == (x + 1) % Config.IndexModulus
  {
    var q, r := x / Config.IndexModulus, x % Config.IndexModulus;
    assert x == Config.IndexModulus * q + r;
    if r < Config.IndexModulus - 1 {
      assert x + 1 == Config.IndexModulus * q + (r + 1);
    } else {
      assert x + 1 == Config.IndexModulus * (q + 1);
    }
  }

  lemma {:induction false} IndexAfterClosedForm(i: int, n: nat)
    requires 0 <= i < Config.IndexModulus
    ensures IndexAfter(i, n) == (i + n) % Config.IndexModulus
  {
    if n > 0 {
      var x: nat := i + n - 1;
      IndexAfterClosedForm(i, n - 1);
      ModSucc(x);
      calc {
        IndexAfter(i, n);
        NextIndex(IndexAfter(i, n - 1));
        NextIndex(x % Config.IndexModulus);
        (x % Config.IndexModulus + 1) % Config.IndexModulus;
        (x + 1) % Config.IndexModulus;
      }
    }
  }

  /** The counter returns to its start after exactly 256 publishes, and not before. */
  lemma IndexFullCycle(i: int, n: nat)
    requires 0 <= i < Config.IndexModulus && 0 < n <= Config.IndexModulus
    ensures IndexAfter(i, n) == i <==> n == Config.IndexModulus
  {
    IndexAfterClosedForm(i, n);
  }
}
