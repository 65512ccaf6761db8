/**
  DPI presets (dpi.rs, `rebuild_dpi_cycles` of orchestrator.rs, `DpiCapabilities::nearest` of
  openlogi-core): the preset index, the DPI last set, and stepping from a DPI read off the sensor.
*/
module DpiCycles {
  import opened Basics

  type Key = string
  type Dpi = nat

  /** The DPI values a sensor lists: sorted, without repeats, at least one. */
  datatype Capabilities = Capabilities(values: seq<Dpi>)

  /** The cell of the DPI before a held shift, by identity. */
  type ShiftCell = nat

  datatype CycleState = CycleState(
    presets: seq<Dpi>, index: nat, target: Option<DeviceRoute>, capabilities: Option<Capabilities>,
    current: Option<Dpi>, committed: Option<Dpi>, beforeShift: ShiftCell)

  /** The index lies in a list that has one, and a sensor lists some value. */
  predicate Sound(s: CycleState) {
    (s.presets != [] ==> s.index < |s.presets|) && (s.capabilities.Some? ==> s.capabilities.value.values != [])
  }

  function Distance(a: Dpi, b: Dpi): nat { if a < b then b - a else a - b }

  // --- First and last extremes, as the iterator adapters pick them ---------------------------------

  /** The first position with the least distance to `dpi`. */
  function NearestIndex(dpis: seq<Dpi>, dpi: Dpi): (r: Option<nat>)
    ensures r.None? <==> dpis == []
    ensures r.Some? ==> r.value < |dpis|
    ensures r.Some? ==> forall j :: 0 <= j < |dpis| ==>
              Distance(dpis[r.value], dpi) < Distance(dpis[j], dpi)
              || (Distance(dpis[r.value], dpi) == Distance(dpis[j], dpi) && r.value <= j)
  {
    if dpis == [] then None else
    var n := |dpis| - 1;
    var best := NearestIndex(dpis[..n], dpi);
    if best.None? || Distance(dpis[n], dpi) < Distance(dpis[best.value], dpi) then Some(n) else best
  }

  /** The first position of the least value above `floor`. */
  function LeastAbove(dpis: seq<Dpi>, floor: Dpi): (r: Option<nat>)
    ensures r.None? <==> forall j :: 0 <= j < |dpis| ==> dpis[j] <= floor
    ensures r.Some? ==> r.value < |dpis| && dpis[r.value] > floor
    ensures r.Some? ==> forall j :: 0 <= j < |dpis| && dpis[j] > floor ==>
              dpis[r.value] < dpis[j] || (dpis[r.value] == dpis[j] && r.value <= j)
  {
    if dpis == [] then None else
    var n := |dpis| - 1;
    var best := LeastAbove(dpis[..n], floor);
    assert forall j :: 0 <= j < n ==> dpis[..n][j] == dpis[j];
    if dpis[n] > floor && (best.None? || dpis[n] < dpis[best.value]) then Some(n) else best
  }

  /** The last position of the greatest value below `ceiling`. */
  function GreatestBelow(dpis: seq<Dpi>, ceiling: Dpi): (r: Option<nat>)
    ensures r.None? <==> forall j :: 0 <= j < |dpis| ==> dpis[j] >= ceiling
    ensures r.Some? ==> r.value < |dpis| && dpis[r.value] < ceiling
    ensures r.Some? ==> forall j :: 0 <= j < |dpis| && dpis[j] < ceiling ==>
              dpis[r.value] > dpis[j] || (dpis[r.value] == dpis[j] && r.value >= j)
  {
    if dpis == [] then None else
    var n := |dpis| - 1;
    var best := GreatestBelow(dpis[..n], ceiling);
    assert forall j :: 0 <= j < n ==> dpis[..n][j] == dpis[j];
    if dpis[n] < ceiling && (best.None? || dpis[n] >= dpis[best.value]) then Some(n) else best
  }

  /** The last position of the greatest value. */
  function Highest(dpis: seq<Dpi>): (r: Option<nat>)
    ensures r.None? <==> dpis == []
    ensures r.Some? ==> r.value < |dpis|
    ensures r.Some? ==> forall j :: 0 <= j < |dpis| ==>
              dpis[r.value] > dpis[j] || (dpis[r.value] == dpis[j] && r.value >= j)
  {
    if dpis == [] then None else
    var n := |dpis| - 1;
    var best := Highest(dpis[..n]);
    if best.None? || dpis[n] >= dpis[best.value] then Some(n) else best
  }

  /** The first position of the least value. */
  function Lowest(dpis: seq<Dpi>): (r: Option<nat>)
    ensures r.None? <==> dpis == []
    ensures r.Some? ==> r.value < |dpis|
    ensures r.Some? ==> forall j :: 0 <= j < |dpis| ==>
              dpis[r.value] < dpis[j] || (dpis[r.value] == dpis[j] && r.value <= j)
  {
    if dpis == [] then None else
    var n := |dpis| - 1;
    var best := Lowest(dpis[..n]);
    if best.None? || dpis[n] < dpis[best.value] then Some(n) else best
  }

  // --- Operations on one state --------------------------------------------------------------------

  /** The listed DPI nearest to `dpi`; any DPI when the capabilities are not known. */
  function Normalize(s: CycleState, dpi: Dpi): Dpi
    requires Sound(s)
  {
    if s.capabilities.None? then dpi
    else s.capabilities.value.values[NearestIndex(s.capabilities.value.values, dpi).value]
  }

  function Normalized(s: CycleState): (r: seq<Dpi>)
    requires Sound(s)
    ensures |r| == |s.presets| && forall i :: 0 <= i < |r| ==> r[i] == Normalize(s, s.presets[i])
  {
    seq(|s.presets|, i requires 0 <= i < |s.presets| => Normalize(s, s.presets[i]))
  }

  /** Any DPI stands for itself on a sensor not known yet; on a known one, for the first of the nearest listed values. */
  lemma NormalizeIsNearest(s: CycleState, dpi: Dpi)
    requires Sound(s)
    ensures s.capabilities.None? ==> Normalize(s, dpi) == dpi
    ensures s.capabilities.Some? ==>
              && Normalize(s, dpi) in s.capabilities.value.values
              && forall v :: v in s.capabilities.value.values ==> Distance(Normalize(s, dpi), dpi) <= Distance(v, dpi)
    ensures s.capabilities.Some? && dpi in s.capabilities.value.values ==> Normalize(s, dpi) == dpi
  {
    if s.capabilities.Some? && dpi in s.capabilities.value.values {
      assert Distance(dpi, dpi) == 0;
    }
  }

  /** A listed DPI is its own nearest. */
  lemma NormalizeTwice(s: CycleState, dpi: Dpi)
    requires Sound(s)
    ensures Normalize(s, Normalize(s, dpi)) == Normalize(s, dpi)
  {
    if s.capabilities.Some? {
      var values := s.capabilities.value.values;
      var k := NearestIndex(values, dpi).value;
      assert Distance(values[k], values[k]) == 0;
      assert Distance(values[NearestIndex(values, values[k]).value], values[k]) == 0;
    }
  }

  function Select(s: CycleState, i: nat): (r: CycleState)
    requires Sound(s) && i < |s.presets|
    ensures Sound(r)
  {
    s.(index := i, current := Some(Normalize(s, s.presets[i])))
  }

  function Cycle(s: CycleState): (r: CycleState)
    requires Sound(s)
    ensures Sound(r)
  {
    if s.presets == [] then s else Select(s, (s.index + 1) % |s.presets|)
  }

  function Pick(s: CycleState, i: nat): (r: CycleState)
    requires Sound(s)
    ensures Sound(r)
  {
    if s.presets == [] then s else Select(s, if i < |s.presets| then i else |s.presets| - 1)
  }

  function StepUp(s: CycleState): (r: CycleState)
    requires Sound(s)
    ensures Sound(r)
  {
    if s.presets == [] then s else Select(s, if s.index + 1 < |s.presets| then s.index + 1 else |s.presets| - 1)
  }

  function StepDown(s: CycleState): (r: CycleState)
    requires Sound(s)
    ensures Sound(r)
  {
    if s.presets == [] then s else Select(s, if s.index > 0 then s.index - 1 else 0)
  }

  function UpIndex(dpis: seq<Dpi>, reading: Dpi): (i: nat)
    requires dpis != []
    ensures i < |dpis|
  {
    var above := LeastAbove(dpis, reading);
    if above.Some? then above.value else Highest(dpis).value
  }

  function DownIndex(dpis: seq<Dpi>, reading: Dpi): (i: nat)
    requires dpis != []
    ensures i < |dpis|
  {
    var below := GreatestBelow(dpis, reading);
    if below.Some? then below.value else Lowest(dpis).value
  }

  function StepUpFrom(s: CycleState, reading: Dpi): (r: CycleState)
    requires Sound(s)
    ensures Sound(r)
  {
    if s.presets == [] then s else Select(s, UpIndex(Normalized(s), Normalize(s, reading)))
  }

  function StepDownFrom(s: CycleState, reading: Dpi): (r: CycleState)
    requires Sound(s)
    ensures Sound(r)
  {
    if s.presets == [] then s else Select(s, DownIndex(Normalized(s), Normalize(s, reading)))
  }

  function Reapplied(s: CycleState, dpi: Dpi): (r: CycleState)
    requires Sound(s)
    ensures Sound(r)
  {
    var d := Normalize(s, dpi);
    var near := NearestIndex(s.presets, d);
    s.(current := Some(d), index := if near.Some? then near.value else s.index)
  }

  function Rejected(s: CycleState, dpi: Dpi): (r: CycleState)
    requires Sound(s)
    ensures Sound(r)
  {
    if s.current == Some(Normalize(s, dpi)) then s.(current := None) else s
  }

  // --- The map of states -------------------------------------------------------------------------

  /** A device with its saved presets, the stock presets of its model, if any, and its saved DPI. */
  datatype Device = Device(key: Key, online: bool, enabled: bool, route: Option<DeviceRoute>,
                           saved: seq<Dpi>, stock: seq<Dpi>, committed: Option<Dpi>)

  /** A rebuild gives this device a state. */
  predicate Included(d: Device) { d.online && d.enabled && d.route.Some? }

  function PresetsOf(d: Device): seq<Dpi> { if d.saved == [] then d.stock else d.saved }

  type Cycles = map<Key, CycleState>

  predicate AllSound(cycles: Cycles) { forall k :: k in cycles ==> Sound(cycles[k]) }

  /** `spare` is the cell a device gets that had no state before. */
  function RebuildOne(cycles: Cycles, d: Device, spare: ShiftCell): CycleState {
    var presets := PresetsOf(d);
    var known := d.key in cycles && cycles[d.key].committed == d.committed;
    var current := if known then cycles[d.key].current else d.committed;
    var near := if current.Some? then NearestIndex(presets, current.value) else None;
    var same := known && cycles[d.key].presets == presets;
    CycleState(presets,
               if same then cycles[d.key].index else if near.Some? then near.value else 0,
               d.route,
               if same then cycles[d.key].capabilities else None,
               current, d.committed,
               if d.key in cycles then cycles[d.key].beforeShift else spare)
  }

  function Rebuild(cycles: Cycles, devices: seq<Device>, spare: ShiftCell): Cycles
    decreases |devices|
  {
    if devices == [] then map[] else
    var d := devices[|devices| - 1];
    var rest := Rebuild(cycles, devices[..|devices| - 1], spare);
    if Included(d) then rest[d.key := RebuildOne(cycles, d, spare + |devices| - 1)] else rest
  }

  datatype Event =
    | Rebuilding(devices: seq<Device>, spare: ShiftCell)
    | Cycling(key: Key)
    | Picking(key: Key, i: nat)
    | SteppingUp(key: Key)
    | SteppingDown(key: Key)
    | SteppingUpFrom(key: Key, reading: Dpi)
    | SteppingDownFrom(key: Key, reading: Dpi)
    | Reapplying(key: Key, dpi: Dpi)
    | ReapplyingAt(route: DeviceRoute, dpi: Dpi)
    | RejectingAt(route: DeviceRoute, dpi: Dpi)
    | Reconnecting(key: Key, cell: ShiftCell)

  function OnKey(cycles: Cycles, key: Key, op: CycleState --> CycleState): Cycles
    requires key in cycles ==> op.requires(cycles[key])
  {
    if key in cycles then cycles[key := op(cycles[key])] else cycles
  }

  function Apply(cycles: Cycles, e: Event): Cycles
    requires AllSound(cycles)
  {
    match e
    case Rebuilding(devices, spare) => Rebuild(cycles, devices, spare)
    case Cycling(key) => OnKey(cycles, key, Cycle)
    case Picking(key, i) => OnKey(cycles, key, (s: CycleState) requires Sound(s) => Pick(s, i))
    case SteppingUp(key) => OnKey(cycles, key, StepUp)
    case SteppingDown(key) => OnKey(cycles, key, StepDown)
    case SteppingUpFrom(key, r) => OnKey(cycles, key, (s: CycleState) requires Sound(s) => StepUpFrom(s, r))
    case SteppingDownFrom(key, r) => OnKey(cycles, key, (s: CycleState) requires Sound(s) => StepDownFrom(s, r))
    case Reapplying(key, dpi) => OnKey(cycles, key, (s: CycleState) requires Sound(s) => Reapplied(s, dpi))
    case ReapplyingAt(route, dpi) =>
      map k | k in cycles :: if cycles[k].target == Some(route) then Reapplied(cycles[k], dpi) else cycles[k]
    case RejectingAt(route, dpi) =>
      map k | k in cycles :: if cycles[k].target == Some(route) then Rejected(cycles[k], dpi) else cycles[k]
    case Reconnecting(key, cell) => OnKey(cycles, key, (s: CycleState) => s.(beforeShift := cell))
  }

  /** The cycles after `es`, or `None` when an index ran out of its preset list on the way. */
  function Run(cycles: Cycles, es: seq<Event>): Option<Cycles>
    decreases |es|
  {
    if !AllSound(cycles) then None
    else if es == [] then Some(cycles)
    else Run(Apply(cycles, es[0]), es[1..])
  }

  lemma {:induction false} RebuildIsSound(cycles: Cycles, devices: seq<Device>, spare: ShiftCell)
    requires AllSound(cycles)
    ensures AllSound(Rebuild(cycles, devices, spare))
    decreases |devices|
  {
    if devices != [] {
      RebuildIsSound(cycles, devices[..|devices| - 1], spare);
    }
  }

  lemma OnKeyIsSound(cycles: Cycles, key: Key, op: CycleState --> CycleState)
    requires AllSound(cycles)
    requires forall s :: Sound(s) ==> op.requires(s) && Sound(op(s))
    ensures AllSound(OnKey(cycles, key, op))
  {}

  lemma ApplyIsSound(cycles: Cycles, e: Event)
    requires AllSound(cycles)
    ensures AllSound(Apply(cycles, e))
  {
    match e
    case Rebuilding(devices, spare) => RebuildIsSound(cycles, devices, spare);
    case Cycling(key) => OnKeyIsSound(cycles, key, Cycle);
    case Picking(key, i) => OnKeyIsSound(cycles, key, (s: CycleState) requires Sound(s) => Pick(s, i));
    case SteppingUp(key) => OnKeyIsSound(cycles, key, StepUp);
    case SteppingDown(key) => OnKeyIsSound(cycles, key, StepDown);
    case SteppingUpFrom(key, r) => OnKeyIsSound(cycles, key, (s: CycleState) requires Sound(s) => StepUpFrom(s, r));
    case SteppingDownFrom(key, r) => OnKeyIsSound(cycles, key, (s: CycleState) requires Sound(s) => StepDownFrom(s, r));
    case Reapplying(key, dpi) => OnKeyIsSound(cycles, key, (s: CycleState) requires Sound(s) => Reapplied(s, dpi));
    case ReapplyingAt(_, _) =>
    case RejectingAt(_, _) =>
    case Reconnecting(key, cell) => OnKeyIsSound(cycles, key, (s: CycleState) => s.(beforeShift := cell));
  }

  /** No run takes an index out of its preset list. */
  lemma {:induction false} IndexStaysInBounds(cycles: Cycles, es: seq<Event>)
    requires AllSound(cycles)
    ensures Run(cycles, es).Some? && AllSound(Run(cycles, es).value)
    decreases |es|
  {
    if es != [] {
      ApplyIsSound(cycles, es[0]);
      IndexStaysInBounds(Apply(cycles, es[0]), es[1..]);
    }
  }

  /** Device `i` is the last one with its key that a rebuild includes. */
  predicate Decides(devices: seq<Device>, i: nat) {
    i < |devices| && Included(devices[i])
    && forall j :: i < j < |devices| && Included(devices[j]) ==> devices[j].key != devices[i].key
  }

  /** The last included device of a key decides its new state. */
  lemma {:induction false} RebuildOf(cycles: Cycles, devices: seq<Device>, spare: ShiftCell, i: nat)
    requires Decides(devices, i)
    ensures var k := devices[i].key;
            k in Rebuild(cycles, devices, spare)
            && Rebuild(cycles, devices, spare)[k] == RebuildOne(cycles, devices[i], spare + i)
    decreases |devices|
  {
    if i < |devices| - 1 {
      RebuildOf(cycles, devices[..|devices| - 1], spare, i);
    }
  }

  /** A key has a state after a rebuild exactly when some device of that key is included. */
  lemma {:induction false} RebuildCovers(cycles: Cycles, devices: seq<Device>, spare: ShiftCell, k: Key)
    ensures k in Rebuild(cycles, devices, spare)
       <==> exists i :: 0 <= i < |devices| && devices[i].key == k
                        && devices[i].online && devices[i].enabled && devices[i].route.Some?
    decreases |devices|
  {
    if devices != [] {
      var n := |devices| - 1;
      RebuildCovers(cycles, devices[..n], spare, k);
      assert forall i :: 0 <= i < n ==> devices[..n][i] == devices[i];
    }
  }

  /** A rebuild keeps the shift cell of a mouse that stays, and its place when its presets and saved DPI are unchanged. */
  lemma RebuildKeepsPlace(cycles: Cycles, devices: seq<Device>, spare: ShiftCell, i: nat)
    requires Decides(devices, i) && devices[i].key in cycles
    ensures var d, before := devices[i], cycles[devices[i].key];
            && d.key in Rebuild(cycles, devices, spare)
            && var s := Rebuild(cycles, devices, spare)[d.key];
               && s.beforeShift == before.beforeShift
               && (PresetsOf(d) == before.presets && d.committed == before.committed ==>
                     s == before.(target := d.route))
               && (d.committed == before.committed ==> s.current == before.current)
  {
    RebuildOf(cycles, devices, spare, i);
  }

  // --- Cycling and stepping ---------------------------------------------------------------------------

  function Cycled(s: CycleState, t: nat): (r: CycleState)
    requires Sound(s)
    ensures Sound(r) && r.presets == s.presets && r.capabilities == s.capabilities
  {
    if t == 0 then s else Cycle(Cycled(s, t - 1))
  }

  lemma NextIndex(i: nat, n: nat)
    requires i < n
    ensures (i + 1) % n == if i + 1 == n then 0 else i + 1
  {}

  lemma {:induction false} CycledIndex(s: CycleState, t: nat)
    requires Sound(s) && s.presets != [] && t <= |s.presets|
    ensures Cycled(s, t).index == if s.index + t < |s.presets| then s.index + t else s.index + t - |s.presets|
  {
    if t > 0 {
      CycledIndex(s, t - 1);
      NextIndex(Cycled(s, t - 1).index, |s.presets|);
    }
  }

  /** As many cycles as there are presets visit each of them once and return to the start. */
  lemma CyclesVisitEachPresetOnce(s: CycleState, p: nat)
    requires Sound(s) && p < |s.presets|
    ensures exists t :: 0 <= t < |s.presets| && Cycled(s, t).index == p
    ensures forall t, u :: 0 <= t < u < |s.presets| ==> Cycled(s, t).index != Cycled(s, u).index
    ensures Cycled(s, |s.presets|).index == s.index
  {
    var n := |s.presets|;
    var t := if p >= s.index then p - s.index else p + n - s.index;
    CycledIndex(s, t);
    CycledIndex(s, n);
    forall t, u | 0 <= t < u < n ensures Cycled(s, t).index != Cycled(s, u).index {
      CycledIndex(s, t);
      CycledIndex(s, u);
    }
  }

  predicate Increasing(dpis: seq<Dpi>) { forall i, j :: 0 <= i < j < |dpis| ==> dpis[i] < dpis[j] }

  lemma UpOnIncreasing(dpis: seq<Dpi>, k: nat)
    requires Increasing(dpis) && k < |dpis|
    ensures UpIndex(dpis, dpis[k]) == if k + 1 < |dpis| then k + 1 else |dpis| - 1
  {
    if k + 1 < |dpis| {
      assert dpis[k + 1] > dpis[k];
    }
  }

  lemma DownOnIncreasing(dpis: seq<Dpi>, k: nat)
    requires Increasing(dpis) && k < |dpis|
    ensures DownIndex(dpis, dpis[k]) == if k > 0 then k - 1 else 0
  {
    if k > 0 {
      assert dpis[k - 1] < dpis[k];
    }
  }

  /** What a step from a reading sets: a preset's DPI, which the sensor lists. */
  lemma StepUpFromSets(s: CycleState, reading: Dpi)
    requires Sound(s) && s.presets != []
    ensures var dpis := Normalized(s);
            var i := UpIndex(dpis, Normalize(s, reading));
            StepUpFrom(s, reading) == s.(index := i, current := Some(dpis[i])) && Normalize(s, dpis[i]) == dpis[i]
  {
    NormalizeTwice(s, s.presets[UpIndex(Normalized(s), Normalize(s, reading))]);
  }

  lemma StepDownFromSets(s: CycleState, reading: Dpi)
    requires Sound(s) && s.presets != []
    ensures var dpis := Normalized(s);
            var i := DownIndex(dpis, Normalize(s, reading));
            StepDownFrom(s, reading) == s.(index := i, current := Some(dpis[i])) && Normalize(s, dpis[i]) == dpis[i]
  {
    NormalizeTwice(s, s.presets[DownIndex(Normalized(s), Normalize(s, reading))]);
  }

  /** On increasing presets, stepping from the DPI of preset `k` is stepping from index `k`. */
  lemma SteppingFromAReadingAgrees(s: CycleState, k: nat)
    requires Sound(s) && k < |s.presets| && Increasing(Normalized(s))
    ensures StepUpFrom(s, Normalized(s)[k]) == StepUp(s.(index := k))
    ensures StepDownFrom(s, Normalized(s)[k]) == StepDown(s.(index := k))
  {
    var dpis := Normalized(s);
    NormalizeTwice(s, s.presets[k]);
    StepUpFromSets(s, dpis[k]);
    StepDownFromSets(s, dpis[k]);
    UpOnIncreasing(dpis, k);
    DownOnIncreasing(dpis, k);
  }

  /** The presets above `dpi`. */
  ghost function Above(dpis: seq<Dpi>, dpi: Dpi): set<nat> { set j | 0 <= j < |dpis| && dpis[j] > dpi }

  lemma FewerAbove(dpis: seq<Dpi>, reading: Dpi)
    requires dpis != []
    ensures var up := dpis[UpIndex(dpis, reading)];
            if Above(dpis, reading) == {} then Above(dpis, up) == {}
            else |Above(dpis, up)| < |Above(dpis, reading)|
  {
    var i := UpIndex(dpis, reading);
    if Above(dpis, reading) == {} {
      assert forall j :: 0 <= j < |dpis| ==> j !in Above(dpis, reading);
    } else {
      var j :| j in Above(dpis, reading);
      assert i in Above(dpis, reading) && i !in Above(dpis, dpis[i]);
      assert Above(dpis, dpis[i]) <= Above(dpis, reading) - {i};
      Shrinks(Above(dpis, dpis[i]), Above(dpis, reading) - {i});
    }
  }

  /** The presets below `dpi`. */
  ghost function Below(dpis: seq<Dpi>, dpi: Dpi): set<nat> { set j | 0 <= j < |dpis| && dpis[j] < dpi }

  lemma FewerBelow(dpis: seq<Dpi>, reading: Dpi)
    requires dpis != []
    ensures var down := dpis[DownIndex(dpis, reading)];
            if Below(dpis, reading) == {} then Below(dpis, down) == {}
            else |Below(dpis, down)| < |Below(dpis, reading)|
  {
    var i := DownIndex(dpis, reading);
    if Below(dpis, reading) == {} {
      assert forall j :: 0 <= j < |dpis| ==> j !in Below(dpis, reading);
    } else {
      var j :| j in Below(dpis, reading);
      assert i in Below(dpis, reading) && i !in Below(dpis, dpis[i]);
      assert Below(dpis, dpis[i]) <= Below(dpis, reading) - {i};
      Shrinks(Below(dpis, dpis[i]), Below(dpis, reading) - {i});
    }
  }

  lemma {:induction false} Shrinks(a: set<nat>, b: set<nat>)
    requires a <= b
    ensures |a| <= |b|
  {
    if a != {} {
      var x :| x in a;
      Shrinks(a - {x}, b - {x});
    }
  }

  lemma {:induction false} AtMostAll(s: set<nat>, n: nat)
    requires forall j :: j in s ==> j < n
    ensures |s| <= n
    decreases n
  {
    if n > 0 {
      AtMostAll(s - {n - 1}, n - 1);
      if n - 1 in s { assert |s - {n - 1}| == |s| - 1; } else { assert s - {n - 1} == s; }
    } else {
      assert s == {};
    }
  }

  /** The DPI after `t` steps up, each from the DPI before it. */
  function Climb(s: CycleState, reading: Dpi, t: nat): Dpi
    requires Sound(s) && s.presets != []
    decreases t
  {
    if t == 0 then reading else Climb(s, StepUpFrom(s, reading).current.value, t - 1)
  }

  /** The same on plain values. */
  function ClimbIn(dpis: seq<Dpi>, from: Dpi, t: nat): (r: Dpi)
    requires dpis != []
    ensures t > 0 ==> r in dpis
    decreases t
  {
    if t == 0 then from else ClimbIn(dpis, dpis[UpIndex(dpis, from)], t - 1)
  }

  lemma {:induction false} ClimbIsIn(s: CycleState, dpis: seq<Dpi>, reading: Dpi, at: Dpi, t: nat)
    requires Sound(s) && s.presets != [] && dpis == Normalized(s) && at == Normalize(s, reading)
    ensures Climb(s, reading, t) == if t == 0 then reading else ClimbIn(dpis, at, t)
    decreases t
  {
    if t > 0 {
      var next := dpis[UpIndex(dpis, at)];
      StepUpFromLands(s, dpis, reading, at, next);
      ClimbIsIn(s, dpis, next, next, t - 1);
    }
  }

  lemma StepUpFromLands(s: CycleState, dpis: seq<Dpi>, from: Dpi, at: Dpi, next: Dpi)
    requires Sound(s) && s.presets != [] && dpis == Normalized(s) && Normalize(s, from) == at
    requires next == dpis[UpIndex(dpis, at)]
    ensures StepUpFrom(s, from).current == Some(next) && Normalize(s, next) == next
  {
    StepUpFromSets(s, from);
  }

  lemma {:induction false} ClimbLeaves(dpis: seq<Dpi>, from: Dpi, t: nat)
    requires dpis != []
    ensures |Above(dpis, ClimbIn(dpis, from, t))| <= if t < |Above(dpis, from)| then |Above(dpis, from)| - t else 0
    decreases t
  {
    if t > 0 {
      FewerAbove(dpis, from);
      ClimbLeaves(dpis, dpis[UpIndex(dpis, from)], t - 1);
    }
  }

  /** The DPI after `t` steps down, each from the DPI before it. */
  function Descend(s: CycleState, reading: Dpi, t: nat): Dpi
    requires Sound(s) && s.presets != []
    decreases t
  {
    if t == 0 then reading else Descend(s, StepDownFrom(s, reading).current.value, t - 1)
  }

  /** The same on plain values. */
  function DescendIn(dpis: seq<Dpi>, from: Dpi, t: nat): (r: Dpi)
    requires dpis != []
    ensures t > 0 ==> r in dpis
    decreases t
  {
    if t == 0 then from else DescendIn(dpis, dpis[DownIndex(dpis, from)], t - 1)
  }

  lemma {:induction false} DescentIsIn(s: CycleState, dpis: seq<Dpi>, reading: Dpi, at: Dpi, t: nat)
    requires Sound(s) && s.presets != [] && dpis == Normalized(s) && at == Normalize(s, reading)
    ensures Descend(s, reading, t) == if t == 0 then reading else DescendIn(dpis, at, t)
    decreases t
  {
    if t > 0 {
      var next := dpis[DownIndex(dpis, at)];
      StepDownFromLands(s, dpis, reading, at, next);
      DescentIsIn(s, dpis, next, next, t - 1);
    }
  }

  lemma StepDownFromLands(s: CycleState, dpis: seq<Dpi>, from: Dpi, at: Dpi, next: Dpi)
    requires Sound(s) && s.presets != [] && dpis == Normalized(s) && Normalize(s, from) == at
    requires next == dpis[DownIndex(dpis, at)]
    ensures StepDownFrom(s, from).current == Some(next) && Normalize(s, next) == next
  {
    StepDownFromSets(s, from);
  }

  lemma {:induction false} DescentLeaves(dpis: seq<Dpi>, from: Dpi, t: nat)
    requires dpis != []
    ensures |Below(dpis, DescendIn(dpis, from, t))| <= if t < |Below(dpis, from)| then |Below(dpis, from)| - t else 0
    decreases t
  {
    if t > 0 {
      FewerBelow(dpis, from);
      DescentLeaves(dpis, dpis[DownIndex(dpis, from)], t - 1);
    }
  }

  lemma NoneAbove(dpis: seq<Dpi>, from: Dpi, j: nat)
    requires j < |dpis|
    ensures dpis[j] <= ClimbIn(dpis, from, |dpis|)
  {
    AtMostAll(Above(dpis, from), |dpis|);
    ClimbLeaves(dpis, from, |dpis|);
    assert j !in Above(dpis, ClimbIn(dpis, from, |dpis|));
  }

  lemma NoneBelow(dpis: seq<Dpi>, from: Dpi, j: nat)
    requires j < |dpis|
    ensures dpis[j] >= DescendIn(dpis, from, |dpis|)
  {
    AtMostAll(Below(dpis, from), |dpis|);
    DescentLeaves(dpis, from, |dpis|);
    assert j !in Below(dpis, DescendIn(dpis, from, |dpis|));
  }

  /** From any reading, at most as many steps up as there are presets reach the highest one. */
  lemma ClimbReachesTheTop(s: CycleState, reading: Dpi, j: nat)
    requires Sound(s) && j < |s.presets|
    ensures Climb(s, reading, |s.presets|) in Normalized(s)
    ensures Normalized(s)[j] <= Climb(s, reading, |s.presets|)
  {
    ClimbIsIn(s, Normalized(s), reading, Normalize(s, reading), |s.presets|);
    NoneAbove(Normalized(s), Normalize(s, reading), j);
  }

  /** And as many steps down reach the lowest one. */
  lemma DescentReachesTheBottom(s: CycleState, reading: Dpi, j: nat)
    requires Sound(s) && j < |s.presets|
    ensures Descend(s, reading, |s.presets|) in Normalized(s)
    ensures Normalized(s)[j] >= Descend(s, reading, |s.presets|)
  {
    DescentIsIn(s, Normalized(s), reading, Normalize(s, reading), |s.presets|);
    NoneBelow(Normalized(s), Normalize(s, reading), j);
  }

  // --- Where an operation goes, and what it sets -----------------------------------------------------

  /** `r` differs from `s` in its place, the DPI of which is set as the sensor lists it. */
  ghost predicate MovedTo(s: CycleState, r: CycleState, i: nat)
    requires Sound(s)
  {
    && i < |s.presets| && r == s.(index := i, current := r.current) && r.current.Some?
    && match s.capabilities
       case None => r.current.value == s.presets[i]
       case Some(caps) =>
         && r.current.value in caps.values
         && forall v :: v in caps.values ==> Distance(r.current.value, s.presets[i]) <= Distance(v, s.presets[i])
  }

  lemma SelectMoves(s: CycleState, i: nat)
    requires Sound(s) && i < |s.presets|
    ensures MovedTo(s, Select(s, i), i)
  {
    NormalizeIsNearest(s, s.presets[i]);
  }

  /** A pick goes to its preset, or to the last one past the end; nothing moves without presets. */
  lemma PickMoves(s: CycleState, i: nat)
    requires Sound(s)
    ensures s.presets == [] ==> Pick(s, i) == s
    ensures i < |s.presets| ==> MovedTo(s, Pick(s, i), i)
    ensures s.presets != [] && i >= |s.presets| ==> MovedTo(s, Pick(s, i), |s.presets| - 1)
  {
    if s.presets != [] {
      SelectMoves(s, if i < |s.presets| then i else |s.presets| - 1);
    }
  }

  /** Steps by index go one place and stop at the ends. */
  lemma StepsMove(s: CycleState)
    requires Sound(s)
    ensures s.presets == [] ==> StepUp(s) == s && StepDown(s) == s && Cycle(s) == s
    ensures s.presets != [] && s.index + 1 < |s.presets| ==> MovedTo(s, StepUp(s), s.index + 1) && MovedTo(s, Cycle(s), s.index + 1)
    ensures s.presets != [] && s.index + 1 == |s.presets| ==> MovedTo(s, StepUp(s), s.index) && MovedTo(s, Cycle(s), 0)
    ensures s.presets != [] && s.index > 0 ==> MovedTo(s, StepDown(s), s.index - 1)
    ensures s.presets != [] && s.index == 0 ==> MovedTo(s, StepDown(s), 0)
  {
    if s.presets != [] {
      NextIndex(s.index, |s.presets|);
      SelectMoves(s, StepUp(s).index);
      SelectMoves(s, StepDown(s).index);
      SelectMoves(s, Cycle(s).index);
    }
  }

  /** A step up goes to the first of the least presets above the reading, or to the last of the highest ones. */
  lemma UpIsNext(dpis: seq<Dpi>, reading: Dpi, j: nat)
    requires j < |dpis|
    ensures var up := UpIndex(dpis, reading);
            && (dpis[j] > reading ==> dpis[up] > reading && (dpis[up] < dpis[j] || (dpis[up] == dpis[j] && up <= j)))
            && (dpis[up] <= reading ==> dpis[up] > dpis[j] || (dpis[up] == dpis[j] && up >= j))
  {}

  lemma DownIsNext(dpis: seq<Dpi>, reading: Dpi, j: nat)
    requires j < |dpis|
    ensures var down := DownIndex(dpis, reading);
            && (dpis[j] < reading ==> dpis[down] < reading && (dpis[down] > dpis[j] || (dpis[down] == dpis[j] && down >= j)))
            && (dpis[down] >= reading ==> dpis[down] < dpis[j] || (dpis[down] == dpis[j] && down <= j))
  {}

  /** Stepping up from a reading: no preset lies between, and at the top it stays at the highest. Dually down. */
  lemma StepsFromAReadingMove(s: CycleState, reading: Dpi, j: nat)
    requires Sound(s) && j < |s.presets|
    ensures var dpis, from := Normalized(s), Normalize(s, reading);
            var up, down := StepUpFrom(s, reading), StepDownFrom(s, reading);
            && up == s.(index := up.index, current := Some(dpis[up.index]))
            && down == s.(index := down.index, current := Some(dpis[down.index]))
            && (dpis[j] > from ==> from < dpis[up.index] <= dpis[j]) && (dpis[up.index] <= from ==> dpis[up.index] >= dpis[j])
            && (dpis[j] < from ==> dpis[j] <= dpis[down.index] < from) && (dpis[down.index] >= from ==> dpis[down.index] <= dpis[j])
  {
    StepUpFromSets(s, reading);
    StepDownFromSets(s, reading);
    UpIsNext(Normalized(s), Normalize(s, reading), j);
    DownIsNext(Normalized(s), Normalize(s, reading), j);
  }

  /** Reapplying sets the DPI the sensor lists, and goes to the first of the presets nearest to it. */
  lemma ReapplyGoesNear(s: CycleState, dpi: Dpi, j: nat)
    requires Sound(s)
    ensures var r := Reapplied(s, dpi);
            && r == s.(index := r.index, current := Some(Normalize(s, dpi)))
            && (s.presets == [] ==> r.index == s.index)
            && (j < |s.presets| ==>
                  var d := Normalize(s, dpi);
                  && r.index < |s.presets|
                  && (Distance(s.presets[r.index], d) < Distance(s.presets[j], d)
                      || (Distance(s.presets[r.index], d) == Distance(s.presets[j], d) && r.index <= j)))
  {}

  /**
    A rebuild of a device whose presets or saved DPI changed, or that is new: it goes to the preset nearest to the DPI
    then current, the first without one, and learns its sensor anew. The DPI is kept unless the saved one changed.
  */
  lemma RebuildGoesNear(cycles: Cycles, devices: seq<Device>, spare: ShiftCell, i: nat, j: nat)
    requires Decides(devices, i)
    requires var d := devices[i];
             !(d.key in cycles && cycles[d.key].committed == d.committed && cycles[d.key].presets == PresetsOf(d))
    ensures var d := devices[i];
            && d.key in Rebuild(cycles, devices, spare)
            && var s := Rebuild(cycles, devices, spare)[d.key];
               && s.presets == (if d.saved == [] then d.stock else d.saved)
               && s.target == d.route && s.committed == d.committed && s.capabilities.None?
               && s.current == (if d.key in cycles && cycles[d.key].committed == d.committed then cycles[d.key].current else d.committed)
               && (d.key !in cycles ==> s.beforeShift == spare + i)
               && (s.current.None? || s.presets == [] ==> s.index == 0)
               && (s.current.Some? && j < |s.presets| ==>
                     && s.index < |s.presets|
                     && (Distance(s.presets[s.index], s.current.value) < Distance(s.presets[j], s.current.value)
                         || (Distance(s.presets[s.index], s.current.value) == Distance(s.presets[j], s.current.value)
                             && s.index <= j)))
  {
    RebuildOf(cycles, devices, spare, i);
  }

  /** What is set at a route or for a key touches the devices there, or of that key, and no other. */
  lemma TouchesItsOwn(cycles: Cycles, route: DeviceRoute, key: Key, dpi: Dpi, cell: ShiftCell, k: Key)
    requires AllSound(cycles) && k in cycles
    ensures var s := cycles[k];
            var set', refused := Apply(cycles, ReapplyingAt(route, dpi)), Apply(cycles, RejectingAt(route, dpi));
            var named, back := Apply(cycles, Reapplying(key, dpi)), Apply(cycles, Reconnecting(key, cell));
            && k in set' && k in refused && k in named && k in back
            && (s.target != Some(route) ==> set'[k] == s && refused[k] == s)
            && (s.target == Some(route) ==>
                  && set'[k].current == Some(Normalize(s, dpi)) && set'[k] == s.(index := set'[k].index, current := set'[k].current)
                  && refused[k] == if s.current == Some(Normalize(s, dpi)) then s.(current := None) else s)
            && (k != key ==> named[k] == s && back[k] == s)
            && (k == key ==> named[k].current == Some(Normalize(s, dpi)) && back[k] == s.(beforeShift := cell))
  {}

  // --- Setting a DPI back -------------------------------------------------------------------------

  /** Every preset is one the sensor lists. */
  predicate Supported(s: CycleState)
    requires Sound(s)
  {
    forall i :: 0 <= i < |s.presets| ==> Normalize(s, s.presets[i]) == s.presets[i]
  }

  /** Reapplying the DPI a pick set leaves the pick where it was, when the presets differ and are supported. */
  lemma PickSurvivesReapply(s: CycleState, i: nat)
    requires Sound(s) && s.presets != [] && Supported(s)
    requires forall a, b :: 0 <= a < b < |s.presets| ==> s.presets[a] != s.presets[b]
    ensures var p := Pick(s, i);
            Reapplied(p, p.current.value) == p
  {
    var p := Pick(s, i);
    assert Distance(s.presets[p.index], p.current.value) == 0;
    assert Distance(s.presets[NearestIndex(s.presets, p.current.value).value], p.current.value) == 0;
  }

  /** A rejection forgets the DPI it names and no other, and leaves the rest alone. */
  lemma RejectionForgetsOnlyItsOwn(s: CycleState, applied: Dpi, refused: Dpi)
    requires Sound(s)
    ensures var r := Rejected(Reapplied(s, applied), refused);
            && (r.current.None? <==> Normalize(s, applied) == Normalize(s, refused))
            && r == Reapplied(s, applied).(current := r.current)
  {}

  // --- The state objects ---------------------------------------------------------------------------

  /** The listed value nearest to `dpi`, by the loop of `DpiCapabilities::nearest`. */
  method Nearest(values: seq<Dpi>, dpi: Dpi) returns (nearest: Dpi)
    requires values != []
    ensures nearest == values[NearestIndex(values, dpi).value]
  {
    nearest := values[0];
    var best := Distance(nearest, dpi);
    ghost var at := 0;
    for i := 1 to |values|
      invariant 0 <= at < i && nearest == values[at] && best == Distance(nearest, dpi)
      invariant forall j :: 0 <= j < i ==> best < Distance(values[j], dpi) || (best == Distance(values[j], dpi) && at <= j)
    {
      var delta := Distance(values[i], dpi);
      if delta < best {
        nearest, best, at := values[i], delta, i;
      }
    }
  }

  class DpiCycleState {
    var presets: seq<Dpi>
    var index: nat
    var target: Option<DeviceRoute>
    var capabilities: Option<Capabilities>
    var current: Option<Dpi>
    var committed: Option<Dpi>
    var beforeShift: ShiftCell

    ghost function Model(): CycleState reads this {
      CycleState(presets, index, target, capabilities, current, committed, beforeShift)
    }

    ghost predicate Valid() reads this { Sound(Model()) }

    /** What an operation that left the state as `s` returns: the DPI and where to write it. */
    static ghost function Chosen(s: CycleState): Option<(Dpi, Option<DeviceRoute>)> {
      if s.presets == [] || s.current.None? then None else Some((s.current.value, s.target))
    }

    constructor (s: CycleState)
      requires Sound(s)
      ensures Valid() && Model() == s
    {
      presets, index, target, capabilities := s.presets, s.index, s.target, s.capabilities;
      current, committed, beforeShift := s.current, s.committed, s.beforeShift;
    }

    method NormalizeDpi(dpi: Dpi) returns (r: Dpi)
      requires Valid()
      ensures r == Normalize(Model(), dpi)
    {
      r := dpi;
      if capabilities.Some? {
        r := Nearest(capabilities.value.values, dpi);
      }
    }

    method SelectCurrent() returns (r: (Dpi, Option<DeviceRoute>))
      requires Valid() && presets != []
      modifies this`current
      ensures Valid() && Model() == Select(old(Model()), index) && Some(r) == Chosen(Model())
    {
      var dpi := NormalizeDpi(presets[index]);
      current := Some(dpi);
      r := (dpi, target);
    }

    method CycleOn() returns (r: Option<(Dpi, Option<DeviceRoute>)>)
      requires Valid()
      modifies this`index, this`current
      ensures Valid() && Model() == Cycle(old(Model()))
      ensures if presets == [] then r.None? else r.Some? && r == Chosen(Model())
    {
      if presets == [] {
        return None;
      }
      index := (index + 1) % |presets|;
      var chosen := SelectCurrent();
      r := Some(chosen);
    }

    method SetTo(i: nat) returns (r: Option<(Dpi, Option<DeviceRoute>)>)
      requires Valid()
      modifies this`index, this`current
      ensures Valid() && Model() == Pick(old(Model()), i)
      ensures if presets == [] then r.None? else r.Some? && r == Chosen(Model())
    {
      if presets == [] {
        return None;
      }
      index := if i < |presets| then i else |presets| - 1;
      var chosen := SelectCurrent();
      r := Some(chosen);
    }

    method Up() returns (r: Option<(Dpi, Option<DeviceRoute>)>)
      requires Valid()
      modifies this`index, this`current
      ensures Valid() && Model() == StepUp(old(Model()))
      ensures if presets == [] then r.None? else r.Some? && r == Chosen(Model())
    {
      if presets == [] {
        return None;
      }
      index := if index + 1 < |presets| then index + 1 else |presets| - 1;
      var chosen := SelectCurrent();
      r := Some(chosen);
    }

    method Down() returns (r: Option<(Dpi, Option<DeviceRoute>)>)
      requires Valid()
      modifies this`index, this`current
      ensures Valid() && Model() == StepDown(old(Model()))
      ensures if presets == [] then r.None? else r.Some? && r == Chosen(Model())
    {
      if presets == [] {
        return None;
      }
      index := if index > 0 then index - 1 else 0;
      var chosen := SelectCurrent();
      r := Some(chosen);
    }

    method UpFrom(reading: Dpi) returns (r: Option<(Dpi, Option<DeviceRoute>)>)
      requires Valid()
      modifies this`index, this`current
      ensures Valid() && Model() == StepUpFrom(old(Model()), reading)
      ensures if presets == [] then r.None? else r.Some? && r == Chosen(Model())
    {
      var from := NormalizeDpi(reading);
      var dpis := NormalizedPresets();
      if presets == [] {
        return None;
      }
      var above := LeastAbove(dpis, from);
      index := if above.Some? then above.value else Highest(dpis).value;
      var chosen := SelectCurrent();
      r := Some(chosen);
    }

    method DownFrom(reading: Dpi) returns (r: Option<(Dpi, Option<DeviceRoute>)>)
      requires Valid()
      modifies this`index, this`current
      ensures Valid() && Model() == StepDownFrom(old(Model()), reading)
      ensures if presets == [] then r.None? else r.Some? && r == Chosen(Model())
    {
      var from := NormalizeDpi(reading);
      var dpis := NormalizedPresets();
      if presets == [] {
        return None;
      }
      var below := GreatestBelow(dpis, from);
      index := if below.Some? then below.value else Lowest(dpis).value;
      var chosen := SelectCurrent();
      r := Some(chosen);
    }

    method NormalizedPresets() returns (dpis: seq<Dpi>)
      requires Valid()
      ensures dpis == Normalized(Model())
    {
      dpis := [];
      for i := 0 to |presets|
        invariant dpis == Normalized(Model())[..i]
      {
        var dpi := NormalizeDpi(presets[i]);
        dpis := dpis + [dpi];
      }
    }

    method SetBack(dpi: Dpi)
      requires Valid()
      modifies this`index, this`current
      ensures Valid() && Model() == Reapplied(old(Model()), dpi)
    {
      var d := NormalizeDpi(dpi);
      current := Some(d);
      var near := NearestIndex(presets, d);
      if near.Some? {
        index := near.value;
      }
    }
  }

  class DpiCycles {
    var selected: Option<Key>
    var byKey: Cycles

    ghost predicate Valid() reads this { AllSound(byKey) }

    constructor ()
      ensures Valid() && selected.None? && byKey == map[]
    {
      selected, byKey := None, map[];
    }

    /** The key, lowest preset and route of a held shift on `key`, or on the selected device. */
    method TargetForShift(key: Option<Key>) returns (r: Option<(Key, Dpi, DeviceRoute)>)
      requires Valid()
      ensures var k := if key.Some? then key else selected;
              && (r.Some? <==> k.Some? && k.value in byKey
                               && byKey[k.value].presets != [] && byKey[k.value].target.Some?)
              && (r.Some? ==>
                    && r.value.0 == k.value && Some(r.value.2) == byKey[k.value].target
                    && r.value.1 in Normalized(byKey[k.value])
                    && exists low :: low in byKey[k.value].presets && r.value.1 == Normalize(byKey[k.value], low)
                                     && forall p :: p in byKey[k.value].presets ==> low <= p)
    {
      var k := if key.Some? then key else selected;
      if k.None? || k.value !in byKey {
        return None;
      }
      var s := byKey[k.value];
      var low := Lowest(s.presets);
      if low.None? || s.target.None? {
        return None;
      }
      assert Normalized(s)[low.value] == Normalize(s, s.presets[low.value]);
      return Some((k.value, Normalize(s, s.presets[low.value]), s.target.value));
    }

    method ReappliedTo(key: Key, dpi: Dpi)
      requires Valid()
      modifies this`byKey
      ensures Valid() && byKey == Apply(old(byKey), Reapplying(key, dpi))
    {
      ApplyIsSound(byKey, Reapplying(key, dpi));
      if key in byKey {
        byKey := byKey[key := Reapplied(byKey[key], dpi)];
      }
    }

    /** `cell` is a new, empty cell. */
    method Reconnected(key: Key, cell: ShiftCell)
      requires Valid()
      modifies this`byKey
      ensures Valid() && byKey == Apply(old(byKey), Reconnecting(key, cell))
    {
      if key in byKey {
        byKey := byKey[key := byKey[key].(beforeShift := cell)];
      }
    }

    method ReappliedAt(route: DeviceRoute, dpi: Dpi)
      requires Valid()
      modifies this`byKey
      ensures Valid() && byKey == Apply(old(byKey), ReapplyingAt(route, dpi))
    {
      ApplyIsSound(byKey, ReapplyingAt(route, dpi));
      ghost var was, goal := byKey, Apply(byKey, ReapplyingAt(route, dpi));
      var keys := byKey.Keys;
      while keys != {}
        invariant byKey.Keys == was.Keys && keys <= was.Keys
        invariant forall k :: k in was ==> byKey[k] == if k in keys then was[k] else goal[k]
        decreases keys
      {
        var k :| k in keys;
        if byKey[k].target == Some(route) {
          byKey := byKey[k := Reapplied(byKey[k], dpi)];
        }
        keys := keys - {k};
      }
    }

    method RejectedAt(route: DeviceRoute, dpi: Dpi)
      requires Valid()
      modifies this`byKey
      ensures Valid() && byKey == Apply(old(byKey), RejectingAt(route, dpi))
    {
      ApplyIsSound(byKey, RejectingAt(route, dpi));
      ghost var was, goal := byKey, Apply(byKey, RejectingAt(route, dpi));
      var keys := byKey.Keys;
      while keys != {}
        invariant byKey.Keys == was.Keys && keys <= was.Keys
        invariant forall k :: k in was ==> byKey[k] == if k in keys then was[k] else goal[k]
        decreases keys
      {
        var k :| k in keys;
        var s := byKey[k];
        if s.target == Some(route) && s.current == Some(Normalize(s, dpi)) {
          byKey := byKey[k := s.(current := None)];
        }
        keys := keys - {k};
      }
    }

    /** Gives every included device a state; `spare` numbers the new, empty cells. */
    method RebuildDpiCycles(devices: seq<Device>, select: Option<Key>, spare: ShiftCell)
      requires Valid()
      modifies this
      ensures Valid() && selected == select && byKey == Rebuild(old(byKey), devices, spare)
    {
      RebuildIsSound(byKey, devices, spare);
      var states: Cycles := map[];
      for i := 0 to |devices|
        invariant states == Rebuild(byKey, devices[..i], spare)
      {
        assert devices[..i + 1][..i] == devices[..i];
        var d := devices[i];
        if !d.online || !d.enabled || d.route.None? {
          continue;
        }
        states := states[d.key := RebuildOne(byKey, d, spare + i)];
      }
      assert devices[..|devices|] == devices;
      selected, byKey := select, states;
    }
  }
}
