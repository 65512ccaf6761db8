/**
  Precision mode and the numbered pointer-speed writes (pointer_speed.rs, hardware/write_order.rs).

  `State` is the value the mutex of `PointerSpeeds` guards, together with the newest write number of
  each route. Each operation is a function on `State`; the class at the end updates its fields in
  place and is proved to compute exactly these functions.
*/
module PointerSpeeds {
  import opened Basics

  type Key = string
  type PointerSpeed = nat
  type Dpi = nat

  const MIN_SPEED: PointerSpeed := 0x0020
  const DEFAULT_SPEED: PointerSpeed := 0x0100

  datatype DpiTarget = Value(dpi: Dpi) | Lowest | Default
  datatype SpeedTarget = ScaledTo(speed: PointerSpeed) | DpiTo(target: DpiTarget)

  /** How a mouse sets its speed, and the value saved for it. */
  datatype SavedSpeed = Scaled(speed: Option<PointerSpeed>) | Sensor(dpi: Option<Dpi>) {
    /** The slowest speed: what precision mode writes. */
    function Precision(): SpeedTarget {
      if Scaled? then ScaledTo(MIN_SPEED) else DpiTo(Lowest)
    }

    /** The saved value, or the default of the mouse when none is saved. */
    function Restored(): SpeedTarget {
      match this
      case Scaled(Some(v)) => ScaledTo(v)
      case Scaled(None) => ScaledTo(DEFAULT_SPEED)
      case Sensor(Some(d)) => DpiTo(Value(d))
      case Sensor(None) => DpiTo(Default)
    }

    /** The saved value, if any: what a reconnect outside precision mode writes. */
    function Saved(): Option<SpeedTarget> {
      match this
      case Scaled(Some(v)) => Some(ScaledTo(v))
      case Sensor(Some(d)) => Some(DpiTo(Value(d)))
      case _ => None
    }
  }

  datatype OnlineMouse = OnlineMouse(route: DeviceRoute, saved: SavedSpeed)
  datatype SpeedMouse = SpeedMouse(key: Key, route: DeviceRoute, saved: SavedSpeed)
  datatype PrecisionPress = Assigned | DpiButton
  datatype Restore = Restore(key: Key, generation: nat)
  datatype ReloadChange = ReloadChange(speed: bool, assignments: bool) {
    predicate EndsPrecision() { speed || assignments }
  }

  /** A numbered place among the pointer-speed writes of one route. */
  datatype SpeedPlace = SpeedPlace(route: DeviceRoute, ticket: nat, restore: Option<Restore>, led: Option<bool>)
  datatype SpeedWrite = SpeedWrite(place: SpeedPlace, target: SpeedTarget)

  datatype State = State(
    selected: Option<Key>,
    online: map<Key, OnlineMouse>,
    precision: set<Key>,
    restore: map<Key, nat>,
    generation: nat,
    issued: map<DeviceRoute, nat>)
  {
    /** The newest number issued for `route`. */
    function Newest(route: DeviceRoute): nat {
      if route in issued then issued[route] else 0
    }

    function Pending(key: Key): Option<Restore> {
      if key in restore then Some(Restore(key, restore[key])) else None
    }

    /** The mode of `key` is off and a new restore is owed. */
    function EndMode(key: Key): State {
      this.(precision := precision - {key},
            restore := restore[key := generation + 1],
            generation := generation + 1)
    }

    function BeginMode(key: Key): State {
      this.(precision := precision + {key}, restore := restore - {key})
    }

    function Number(route: DeviceRoute): State {
      this.(issued := issued[route := Newest(route) + 1])
    }
  }

  const INITIAL := State(None, map[], {}, map[], 0, map[])

  /** The state after an operation and the writes it numbered, oldest first. */
  datatype Outcome = Outcome(state: State, writes: seq<SpeedWrite>)

  /** The place a write that settles `restore` takes: settling one darkens the LED. */
  function PlaceAt(s: State, route: DeviceRoute, restore: Option<Restore>): SpeedPlace {
    SpeedPlace(route, s.Newest(route) + 1, restore, if restore.Some? then Some(false) else None)
  }

  function WriteOwn(s: State, route: DeviceRoute, target: SpeedTarget, restore: Option<Restore>): Outcome {
    Outcome(s.Number(route), [SpeedWrite(PlaceAt(s, route, restore), target)])
  }

  function WritePrecision(s: State, route: DeviceRoute, saved: SavedSpeed): Outcome {
    Outcome(s.Number(route),
            [SpeedWrite(SpeedPlace(route, s.Newest(route) + 1, None, Some(true)), saved.Precision())])
  }

  // --- The operations -------------------------------------------------------

  function Publish(s: State, selected: Option<Key>, online: map<Key, OnlineMouse>): State {
    s.(selected := selected, online := online)
  }

  /** The mouse a press acts on, if any. */
  function Pressed(s: State, key: Option<Key>, press: PrecisionPress): Option<Key> {
    var k := if key.Some? then key else s.selected;
    if k.Some? && k.value in s.online && (press.DpiButton? ==> s.online[k.value].saved.Scaled?) then k else None
  }

  function TogglePrecision(s: State, key: Option<Key>, press: PrecisionPress): Outcome {
    match Pressed(s, key, press)
    case None => Outcome(s, [])
    case Some(k) =>
      var mouse := s.online[k];
      if k in s.precision then
        var ended := s.EndMode(k);
        WriteOwn(ended, mouse.route, mouse.saved.Restored(), ended.Pending(k))
      else
        WritePrecision(s.BeginMode(k), mouse.route, mouse.saved)
  }

  function Reapply(s: State, key: Key, route: DeviceRoute, saved: SavedSpeed): Outcome {
    if key in s.precision then WritePrecision(s, route, saved)
    else if key in s.restore then WriteOwn(s, route, saved.Restored(), s.Pending(key))
    else match saved.Saved()
         case Some(target) => WriteOwn(s, route, target, None)
         case None => Outcome(s, [])
  }

  function Restored(s: State, restore: Restore): State {
    if s.Pending(restore.key) == Some(restore) then s.(restore := s.restore - {restore.key}) else s
  }

  /** The online mice at `route` whose kind is that of `saved`. */
  function AppKeys(s: State, route: DeviceRoute, saved: SavedSpeed): set<Key> {
    set k | k in s.online && s.online[k].route == route && s.online[k].saved.Scaled? == saved.Scaled?
  }

  function AppOne(s: State, key: Key, saved: SavedSpeed): State {
    var s' := if key in s.precision || key in s.restore then s.EndMode(key) else s;
    if key in s'.online then s'.(online := s'.online[key := s'.online[key].(saved := saved)]) else s'
  }

  /** The loop of `app_write` over the matching keys in the order `order`. */
  function AppFold(s: State, order: seq<Key>, saved: SavedSpeed): (State, Option<Restore>) {
    if order == [] then (s, None) else
    var (t, restore) := AppFold(s, order[..|order| - 1], saved);
    var key := order[|order| - 1];
    var t' := AppOne(t, key, saved);
    (t', if t'.generation != t.generation then t'.Pending(key) else restore)
  }

  lemma AppFoldNext(s: State, order: seq<Key>, key: Key, saved: SavedSpeed)
    ensures AppFold(s, order + [key], saved)
            == var (t, restore) := AppFold(s, order, saved);
               var t' := AppOne(t, key, saved);
               (t', if t'.generation != t.generation then t'.Pending(key) else restore)
  {
    assert (order + [key])[..|order|] == order;
  }

  function AppWrite(s: State, route: DeviceRoute, saved: SavedSpeed, order: seq<Key>): Outcome {
    var (t, restore) := AppFold(s, order, saved);
    WriteOwn(t, route, saved.Restored(), restore)
  }

  predicate ShiftMayRestore(s: State, key: Key, own: Option<Restore>) {
    key !in s.precision && (s.Pending(key).Some? ==> s.Pending(key) == own)
  }

  /** The DPI mice at `route`; a preset acts on one of them. */
  function PresetKeys(s: State, route: DeviceRoute): set<Key> {
    set k | k in s.online && s.online[k].route == route && s.online[k].saved.Sensor?
  }

  predicate Finds(found: Option<Key>, keys: set<Key>) {
    match found case None => keys == {} case Some(k) => k in keys
  }

  function PresetEnd(s: State, found: Option<Key>): State {
    if found.Some? && found.value in s.precision then s.EndMode(found.value) else s
  }

  function PresetPlace(s: State, route: DeviceRoute, found: Option<Key>): (State, SpeedPlace) {
    var t := PresetEnd(s, found);
    (t.Number(route), PlaceAt(t, route, if found.Some? then t.Pending(found.value) else None))
  }

  function PresetWrite(s: State, route: DeviceRoute, found: Option<Key>, dpi: Dpi): Outcome {
    var (t, place) := PresetPlace(s, route, found);
    Outcome(t, [SpeedWrite(place, DpiTo(Value(dpi)))])
  }

  function ReloadOne(s: State, change: ReloadChange, m: SpeedMouse): Outcome {
    if m.key in s.precision && change.EndsPrecision() then
      var t := s.EndMode(m.key);
      WriteOwn(t, m.route, m.saved.Restored(), t.Pending(m.key))
    else if change.speed && m.key in s.restore then
      WriteOwn(s, m.route, m.saved.Restored(), s.Pending(m.key))
    else if change.speed && m.saved.Scaled? && m.saved.speed.Some? then
      WriteOwn(s, m.route, ScaledTo(m.saved.speed.value), None)
    else
      Outcome(s, [])
  }

  function ReloadMice(s: State, change: Key -> ReloadChange, mice: seq<SpeedMouse>): Outcome {
    if mice == [] then Outcome(s, []) else
    var before := ReloadMice(s, change, mice[..|mice| - 1]);
    var m := mice[|mice| - 1];
    var one := ReloadOne(before.state, change(m.key), m);
    Outcome(one.state, before.writes + one.writes)
  }

  function EndModes(s: State, order: seq<Key>): State {
    if order == [] then s else EndModes(s, order[..|order| - 1]).EndMode(order[|order| - 1])
  }

  lemma EndModesNext(s: State, order: seq<Key>, key: Key)
    ensures EndModes(s, order + [key]) == EndModes(s, order).EndMode(key)
  {
    assert (order + [key])[..|order|] == order;
  }

  /** The mice whose mode the reload ends and that got no write: they are offline. */
  function ReloadOffline(s: State, change: Key -> ReloadChange): set<Key> {
    set k | k in s.precision && change(k).EndsPrecision()
  }

  function Reload(s: State, change: Key -> ReloadChange, mice: seq<SpeedMouse>, offline: seq<Key>): Outcome {
    var online := ReloadMice(s, change, mice);
    Outcome(EndModes(online.state, offline), online.writes)
  }

  // --- The object -----------------------------------------------------------

  class PointerSpeeds {
    var selected: Option<Key>
    var online: map<Key, OnlineMouse>
    var precision: set<Key>
    var restore: map<Key, nat>
    var generation: nat
    var issued: map<DeviceRoute, nat>

    ghost function Model(): State reads this {
      State(selected, online, precision, restore, generation, issued)
    }

    constructor ()
      ensures Model() == INITIAL
    {
      selected, online, precision, restore, generation, issued := None, map[], {}, map[], 0, map[];
    }

    method Request(route: DeviceRoute) returns (ticket: nat)
      modifies this`issued
      ensures Model() == old(Model()).Number(route)
      ensures ticket == old(Model()).Newest(route) + 1
    {
      ticket := (if route in issued then issued[route] else 0) + 1;
      issued := issued[route := ticket];
    }

    method OweRestore(key: Key) returns (r: Restore)
      modifies this`restore, this`generation
      ensures generation == old(generation) + 1
      ensures restore == old(restore)[key := generation]
      ensures r == Restore(key, generation)
    {
      generation := generation + 1;
      restore := restore[key := generation];
      r := Restore(key, generation);
    }

    method Place(route: DeviceRoute, r: Option<Restore>) returns (place: SpeedPlace)
      modifies this`issued
      ensures Model() == old(Model()).Number(route)
      ensures place == PlaceAt(old(Model()), route, r)
    {
      var ticket := Request(route);
      place := SpeedPlace(route, ticket, r, if r.Some? then Some(false) else None);
    }

    method Write(route: DeviceRoute, target: SpeedTarget, r: Option<Restore>) returns (w: SpeedWrite)
      modifies this`issued
      ensures Outcome(Model(), [w]) == WriteOwn(old(Model()), route, target, r)
    {
      var place := Place(route, r);
      w := SpeedWrite(place, target);
    }

    method PrecisionWrite(route: DeviceRoute, saved: SavedSpeed) returns (w: SpeedWrite)
      modifies this`issued
      ensures Outcome(Model(), [w]) == WritePrecision(old(Model()), route, saved)
    {
      var ticket := Request(route);
      w := SpeedWrite(SpeedPlace(route, ticket, None, Some(true)), saved.Precision());
    }

    method Republish(sel: Option<Key>, mice: map<Key, OnlineMouse>)
      modifies this
      ensures Model() == Publish(old(Model()), sel, mice)
    {
      selected, online := sel, mice;
    }

    method Toggle(key: Option<Key>, press: PrecisionPress) returns (r: Option<(bool, SpeedWrite)>)
      modifies this
      ensures r.None? <==> Pressed(old(Model()), key, press).None?
      ensures Outcome(Model(), if r.Some? then [r.value.1] else []) == TogglePrecision(old(Model()), key, press)
      ensures r.Some? ==> (r.value.0 <==> Pressed(old(Model()), key, press).value in precision)
    {
      var named := if key.Some? then key else selected;
      if named.None? || named.value !in online {
        return None;
      }
      var k := named.value;
      var mouse := online[k];
      if press.DpiButton? && !mouse.saved.Scaled? {
        return None;
      }
      if k in precision {
        precision := precision - {k};
        var owed := OweRestore(k);
        var w := Write(mouse.route, mouse.saved.Restored(), Some(owed));
        return Some((false, w));
      }
      restore := restore - {k};
      precision := precision + {k};
      var w := PrecisionWrite(mouse.route, mouse.saved);
      return Some((true, w));
    }

    method ReapplyTo(key: Key, route: DeviceRoute, saved: SavedSpeed) returns (r: Option<SpeedWrite>)
      modifies this`issued
      ensures Outcome(Model(), if r.Some? then [r.value] else []) == Reapply(old(Model()), key, route, saved)
    {
      if key in precision {
        var w := PrecisionWrite(route, saved);
        return Some(w);
      }
      if key !in restore {
        var target := saved.Saved();
        if target.None? {
          return None;
        }
        var w := Write(route, target.value, None);
        return Some(w);
      }
      var w := Write(route, saved.Restored(), Some(Restore(key, restore[key])));
      return Some(w);
    }

    method HostModeWrite(key: Key) returns (r: Option<SpeedWrite>)
      modifies this`issued
      ensures key !in online ==> r.None? && Model() == old(Model())
      ensures key in online ==>
        Outcome(Model(), if r.Some? then [r.value] else [])
        == Reapply(old(Model()), key, online[key].route, online[key].saved)
    {
      if key !in online {
        return None;
      }
      r := ReapplyTo(key, online[key].route, online[key].saved);
    }

    method Settle(r: Restore)
      modifies this`restore
      ensures Model() == Restored(old(Model()), r)
    {
      if r.key in restore && restore[r.key] == r.generation {
        restore := restore - {r.key};
      }
    }

    /** One turn of the loop of `app_write`. */
    method AppMouse(key: Key, saved: SavedSpeed, before: Option<Restore>) returns (owed: Option<Restore>)
      requires key in online
      modifies this
      ensures Model() == AppOne(old(Model()), key, saved)
      ensures owed == if generation != old(generation) then Model().Pending(key) else before
    {
      owed := before;
      if key in precision || key in restore {
        precision := precision - {key};
        var r := OweRestore(key);
        owed := Some(r);
      }
      online := online[key := online[key].(saved := saved)];
    }

    /** `order` is the order in which the hash map yielded the matching keys. */
    method App(route: DeviceRoute, saved: SavedSpeed)
      returns (ticket: nat, owed: Option<Restore>, ghost order: seq<Key>)
      modifies this
      ensures Enumerates(order, AppKeys(old(Model()), route, saved))
      ensures Outcome(Model(), [SpeedWrite(SpeedPlace(route, ticket, owed, if owed.Some? then Some(false) else None),
                                           saved.Restored())])
              == AppWrite(old(Model()), route, saved, order)
    {
      var keys := set k | k in online && online[k].route == route && online[k].saved.Scaled? == saved.Scaled?;
      ghost var s0 := Model();
      var todo := keys;
      owed, order := None, [];
      while todo != {}
        invariant Visits(order, todo, keys)
        invariant (Model(), owed) == AppFold(s0, order, saved)
        invariant keys <= online.Keys
        decreases todo
      {
        var key :| key in todo;
        AppFoldNext(s0, order, key, saved);
        VisitNext(order, todo, keys, key);
        owed := AppMouse(key, saved, owed);
        todo, order := todo - {key}, order + [key];
      }
      VisitedAll(order, keys);
      ticket := Request(route);
    }

    method ShiftRestorePlace(key: Key, route: DeviceRoute, own: Option<Restore>) returns (r: Option<SpeedPlace>)
      modifies this`issued
      ensures r.Some? <==> ShiftMayRestore(old(Model()), key, own)
      ensures r.Some? ==> Model() == old(Model()).Number(route)
                          && r.value == PlaceAt(old(Model()), route, old(Model()).Pending(key))
      ensures r.None? ==> Model() == old(Model())
    {
      var pending := if key in restore then Some(Restore(key, restore[key])) else None;
      if key in precision || (pending.Some? && pending != own) {
        return None;
      }
      var place := Place(route, pending);
      return Some(place);
    }

    /** `found` is the DPI mouse the hash map yielded first. */
    method Preset(route: DeviceRoute, dpi: Dpi) returns (w: SpeedWrite, ghost found: Option<Key>)
      modifies this
      ensures Finds(found, PresetKeys(old(Model()), route))
      ensures Outcome(Model(), [w]) == PresetWrite(old(Model()), route, found, dpi)
    {
      var keys := set k | k in online && online[k].route == route && online[k].saved.Sensor?;
      var owed: Option<Restore> := None;
      found := None;
      if keys != {} {
        var key :| key in keys;
        found := Some(key);
        if key in precision {
          precision := precision - {key};
          var r := OweRestore(key);
          owed := Some(r);
        } else if key in restore {
          owed := Some(Restore(key, restore[key]));
        }
      }
      w := Write(route, DpiTo(Value(dpi)), owed);
    }

    /** The state in which the modes of `ended` still count as on: they end one by one below. */
    ghost function Until(ended: set<Key>): State reads this {
      Model().(precision := precision + ended)
    }

    method ReloadMouse(change: ReloadChange, m: SpeedMouse, ended: set<Key>)
      returns (left: set<Key>, writes: seq<SpeedWrite>)
      requires m.key in precision + ended ==> (m.key in ended <==> change.EndsPrecision())
      requires precision !! ended
      modifies this
      ensures precision == old(precision) && left == ended - {m.key}
      ensures Outcome(Until(left), writes) == ReloadOne(old(Until(ended)), change, m)
    {
      left, writes := ended - {m.key}, [];
      if m.key in ended {
        var r := OweRestore(m.key);
        var w := Write(m.route, m.saved.Restored(), Some(r));
        writes := [w];
        assert (precision + ended) - {m.key} == precision + left;
      } else {
        assert left == ended;
        if change.speed {
          if m.key in restore {
            var w := Write(m.route, m.saved.Restored(), Some(Restore(m.key, restore[m.key])));
            writes := [w];
          } else if m.saved.Scaled? && m.saved.speed.Some? {
            var w := Write(m.route, ScaledTo(m.saved.speed.value), None);
            writes := [w];
          }
        }
      }
    }

    method OweOffline(offline: set<Key>) returns (ghost order: seq<Key>)
      requires precision !! offline
      modifies this`restore, this`generation
      ensures Enumerates(order, offline)
      ensures Model() == EndModes(old(Until(offline)), order)
    {
      ghost var t0 := Until(offline);
      var left := offline;
      order := [];
      while left != {}
        invariant left <= offline && Visits(order, left, offline)
        invariant Until(left) == EndModes(t0, order)
        decreases left
      {
        var key :| key in left;
        EndModesNext(t0, order, key);
        VisitNext(order, left, offline, key);
        assert (precision + left) - {key} == precision + (left - {key});
        var _ := OweRestore(key);
        left, order := left - {key}, order + [key];
      }
      VisitedAll(order, offline);
      assert precision + left == precision;
    }

    /** `order` is the order in which the hash set yielded the offline mice whose mode ended. */
    method ReloadWrites(change: Key -> ReloadChange, mice: seq<SpeedMouse>)
      returns (writes: seq<SpeedWrite>, ghost order: seq<Key>)
      modifies this
      ensures Enumerates(order, ReloadOffline(ReloadMice(old(Model()), change, mice).state, change))
      ensures Outcome(Model(), writes) == Reload(old(Model()), change, mice, order)
    {
      ghost var s0 := Model();
      var ended := set k | k in precision && change(k).EndsPrecision();
      precision := precision - ended;
      assert precision + ended == s0.precision;
      writes := [];
      for i := 0 to |mice|
        invariant forall k :: k in precision ==> !change(k).EndsPrecision()
        invariant forall k :: k in ended ==> change(k).EndsPrecision()
        invariant Outcome(Until(ended), writes) == ReloadMice(s0, change, mice[..i])
      {
        assert mice[..i + 1][..i] == mice[..i];
        var more;
        ended, more := ReloadMouse(change(mice[i].key), mice[i], ended);
        writes := writes + more;
      }
      assert mice[..|mice|] == mice;
      assert ended == ReloadOffline(Until(ended), change);
      order := OweOffline(ended);
    }
  }
}
