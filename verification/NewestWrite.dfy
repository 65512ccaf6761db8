/**
  The newest numbered write always carries the newest state (pointer_speed.rs:34-38): for a mouse that
  stays online and alone on its one route, it lights the LED exactly while the mode is on, and carries
  whatever debt is outstanding.
*/
module NewestWrite {
  import opened Basics
  import opened P = PointerSpeeds
  import opened PrecisionSafety
  import opened PrecisionRuns

  /** The newest write of `route`. */
  function LastOn(route: DeviceRoute, fs: seq<Flight>): Option<SpeedPlace>
    decreases |fs|
  {
    if fs == [] then None
    else if fs[|fs| - 1].place.route == route then Some(fs[|fs| - 1].place)
    else LastOn(route, fs[..|fs| - 1])
  }

  /** The mouse has one route, and the newest write there carries the newest state. */
  ghost predicate NewestCarries(m: Mouse, w: World) {
    && m.others == {} && w.s.precision !! w.s.restore.Keys
    && match LastOn(m.route, w.flights)
       case None => w.s.Newest(m.route) == 0 && m.key !in w.s.precision && m.key !in w.s.restore
       case Some(place) =>
         && place.ticket == w.s.Newest(m.route)
         && (place.led == Some(true) <==> m.key in w.s.precision)
         && (m.key in w.s.restore ==> place.restore == w.s.Pending(m.key))
         && (place.led == Some(false) <==> place.restore.Some?)
  }

  /** The mouse stays online, and every write to its route is of its own kind. */
  predicate Steady(m: Mouse, w: World, e: Event) {
    && (!e.Publication? ==> m.key in w.s.online)
    && match e
       case Publication(_, online) => m.key in online
       case AppWrites(route, saved, _) => route == m.route ==> saved.Scaled? == m.scaled
       case PresetPress(route, _, _) => route == m.route ==> !m.scaled
       case ConfigReload(_, mice, _) => exists i :: 0 <= i < |mice| && mice[i].key == m.key
       case HoldShift(_, _) => !m.scaled
       case _ => true
  }

  ghost predicate SteadyRun(m: Mouse, w: World, es: seq<Event>)
    requires Possible(m, w, es)
    decreases |es|
  {
    es == [] || (Steady(m, w, es[0]) && SteadyRun(m, Step(m, w, es[0]), es[1..]))
  }

  ghost predicate OnlineAlone(m: Mouse, s: State) {
    forall k :: k in s.online ==> Alone(m, k, s.online[k].route, s.online[k].saved)
  }

  // --- One write at a time -----------------------------------------------------------

  lemma LastOnSamePlaces(route: DeviceRoute, fs: seq<Flight>, gs: seq<Flight>)
    requires |fs| == |gs| && forall i :: 0 <= i < |fs| ==> fs[i].place == gs[i].place
    ensures LastOn(route, fs) == LastOn(route, gs)
    decreases |fs|
  {
    if fs != [] {
      LastOnSamePlaces(route, fs[..|fs| - 1], gs[..|gs| - 1]);
    }
  }

  lemma LastOnAppend(route: DeviceRoute, fs: seq<Flight>, f: Flight)
    ensures LastOn(route, fs + [f]) == if f.place.route == route then Some(f.place) else LastOn(route, fs)
  {
    assert (fs + [f])[..|fs|] == fs;
  }

  /** What the newest write of the watched route must show in state `s`. */
  predicate Shows(m: Mouse, s: State, place: SpeedPlace) {
    && (place.led == Some(true) <==> m.key in s.precision)
    && (m.key in s.restore ==> place.restore == s.Pending(m.key))
    && (place.led == Some(false) <==> place.restore.Some?)
  }

  /** `t` agrees with `s` on the watched mouse. */
  ghost predicate SameFor(m: Mouse, s: State, t: State) {
    && t.precision !! t.restore.Keys && t.issued == s.issued
    && (m.key in s.precision <==> m.key in t.precision)
    && s.Pending(m.key) == t.Pending(m.key)
  }

  lemma WriteCarries(m: Mouse, w: World, t: State, place: SpeedPlace, job: Job)
    requires NewestCarries(m, w) && t.precision !! t.restore.Keys && t.issued == w.s.issued
    requires place.ticket == t.Newest(place.route) + 1
    requires if place.route == m.route then Shows(m, t, place) else SameFor(m, w.s, t)
    ensures NewestCarries(m, LaunchPlace(w, t.Number(place.route), place, job))
  {
    LastOnAppend(m.route, w.flights, Flight(place, job, Waiting));
    assert t.Number(place.route).Pending(m.key) == t.Pending(m.key);
  }

  lemma OutcomeCarries(m: Mouse, w: World, t: State, o: Outcome)
    requires NewestCarries(m, w) && t.precision !! t.restore.Keys && t.issued == w.s.issued
    requires |o.writes| == 1 && o.state == t.Number(o.writes[0].place.route)
    requires o.writes[0].place.ticket == t.Newest(o.writes[0].place.route) + 1
    requires if o.writes[0].place.route == m.route then Shows(m, t, o.writes[0].place) else SameFor(m, w.s, t)
    ensures NewestCarries(m, Launch(w, o))
  {
    assert Fly(o.writes) == [Flight(o.writes[0].place, Set(o.writes[0].target), Waiting)];
    WriteCarries(m, w, t, o.writes[0].place, Set(o.writes[0].target));
  }

  lemma SilentCarries(m: Mouse, w: World, t: State)
    requires NewestCarries(m, w) && SameFor(m, w.s, t)
    ensures NewestCarries(m, w.(s := t)) && NewestCarries(m, Launch(w, Outcome(t, [])))
  {
    assert w.flights + Fly([]) == w.flights;
    assert t.Newest(m.route) == w.s.Newest(m.route);
  }

  // --- The operations --------------------------------------------------------------------

  lemma PressCarries(m: Mouse, w: World, who: Option<Key>, press: PrecisionPress)
    requires NewestCarries(m, w) && OnlineAlone(m, w.s)
    ensures NewestCarries(m, Launch(w, TogglePrecision(w.s, who, press)))
  {
    match Pressed(w.s, who, press)
    case None => SilentCarries(m, w, w.s);
    case Some(k) =>
      var t := if k in w.s.precision then w.s.EndMode(k) else w.s.BeginMode(k);
      OutcomeCarries(m, w, t, TogglePrecision(w.s, who, press));
  }

  lemma ReconnectCarries(m: Mouse, w: World, key: Key, route: DeviceRoute, saved: SavedSpeed)
    requires NewestCarries(m, w) && Alone(m, key, route, saved)
    ensures NewestCarries(m, Launch(w, Reapply(w.s, key, route, saved)))
  {
    var o := Reapply(w.s, key, route, saved);
    if o.writes == [] {
      SilentCarries(m, w, w.s);
    } else {
      OutcomeCarries(m, w, w.s, o);
    }
  }

  lemma AppFoldShape(m: Mouse, s: State, order: seq<Key>, saved: SavedSpeed)
    requires s.precision !! s.restore.Keys
    ensures var (t, _) := AppFold(s, order, saved);
            t.precision !! t.restore.Keys && t.issued == s.issued && (m.key !in order ==> SameFor(m, s, t))
  {
    if order != [] {
      AppFoldShape(m, s, order[..|order| - 1], saved);
    }
  }

  lemma AppCarries(m: Mouse, w: World, route: DeviceRoute, saved: SavedSpeed, order: seq<Key>)
    requires NewestCarries(m, w) && OnlineAlone(m, w.s) && m.key in w.s.online
    requires Enumerates(order, AppKeys(w.s, route, saved))
    requires route == m.route ==> saved.Scaled? == m.scaled
    ensures NewestCarries(m, Launch(w, AppWrite(w.s, route, saved, order)))
  {
    AppFoldShape(m, w.s, order, saved);
    var (t, restore) := AppFold(w.s, order, saved);
    if route == m.route {
      assert AppKeys(w.s, route, saved) == {m.key};
      EnumeratesOne(order, m.key);
      AppFoldNext(w.s, [], m.key, saved);
      assert [] + [m.key] == order && t == AppOne(w.s, m.key, saved);
    } else {
      assert m.key !in order;
    }
    OutcomeCarries(m, w, t, AppWrite(w.s, route, saved, order));
  }

  lemma PresetCarries(m: Mouse, w: World, route: DeviceRoute, found: Option<Key>, job: Job)
    requires NewestCarries(m, w) && OnlineAlone(m, w.s) && m.key in w.s.online
    requires Finds(found, PresetKeys(w.s, route))
    requires route == m.route ==> !m.scaled
    ensures var (t, place) := PresetPlace(w.s, route, found);
            NewestCarries(m, LaunchPlace(w, t, place, job))
  {
    var t := PresetEnd(w.s, found);
    if route == m.route {
      assert m.key in PresetKeys(w.s, route);
      assert found == Some(m.key);
    } else {
      assert found != Some(m.key);
    }
    WriteCarries(m, w, t, PresetPlace(w.s, route, found).1, job);
  }

  lemma ReloadOneCarries(m: Mouse, w: World, change: ReloadChange, x: SpeedMouse)
    requires NewestCarries(m, w) && Alone(m, x.key, x.route, x.saved)
    ensures NewestCarries(m, Launch(w, ReloadOne(w.s, change, x)))
  {
    var one := ReloadOne(w.s, change, x);
    if one.writes == [] {
      SilentCarries(m, w, w.s);
    } else {
      var ends := x.key in w.s.precision && change.EndsPrecision();
      OutcomeCarries(m, w, if ends then w.s.EndMode(x.key) else w.s, one);
    }
  }

  /** A reload that names the mouse leaves its mode on only if the change does not end it. */
  lemma {:induction false} ReloadEnds(key: Key, s: State, change: Key -> ReloadChange, mice: seq<SpeedMouse>)
    ensures key in ReloadMice(s, change, mice).state.precision && change(key).EndsPrecision() ==>
              forall i :: 0 <= i < |mice| ==> mice[i].key != key
  {
    if mice != [] {
      ReloadEnds(key, s, change, mice[..|mice| - 1]);
    }
  }

  lemma {:induction false} ReloadMiceCarries(m: Mouse, w: World, change: Key -> ReloadChange, mice: seq<SpeedMouse>)
    requires NewestCarries(m, w)
    requires forall x :: x in mice ==> Alone(m, x.key, x.route, x.saved)
    ensures NewestCarries(m, Launch(w, ReloadMice(w.s, change, mice)))
  {
    if mice == [] {
      SilentCarries(m, w, w.s);
    } else {
      var init, x := mice[..|mice| - 1], mice[|mice| - 1];
      ReloadMiceCarries(m, w, change, init);
      var before := ReloadMice(w.s, change, init);
      var one := ReloadOne(before.state, change(x.key), x);
      ReloadOneCarries(m, Launch(w, before), change(x.key), x);
      assert Fly(before.writes + one.writes) == Fly(before.writes) + Fly(one.writes);
      assert Launch(Launch(w, before), one) == Launch(w, ReloadMice(w.s, change, mice));
    }
  }

  lemma EndModesSame(m: Mouse, s: State, order: seq<Key>)
    requires s.precision !! s.restore.Keys && m.key !in order
    ensures SameFor(m, s, EndModes(s, order))
  {
    if order != [] {
      EndModesSame(m, s, order[..|order| - 1]);
    }
  }

  lemma ReloadCarries(m: Mouse, w: World, change: Key -> ReloadChange, mice: seq<SpeedMouse>, order: seq<Key>)
    requires NewestCarries(m, w) && Enabled(m, w, ConfigReload(change, mice, order))
    requires exists i :: 0 <= i < |mice| && mice[i].key == m.key
    ensures NewestCarries(m, Launch(w, Reload(w.s, change, mice, order)))
  {
    ReloadMiceCarries(m, w, change, mice);
    ReloadEnds(m.key, w.s, change, mice);
    var mid := Launch(w, ReloadMice(w.s, change, mice));
    assert m.key !in ReloadOffline(mid.s, change);
    EndModesSame(m, mid.s, order);
    SilentCarries(m, mid, EndModes(mid.s, order));
    assert mid.(s := EndModes(mid.s, order)) == Launch(w, Reload(w.s, change, mice, order));
  }

  lemma SamePlacesCarries(m: Mouse, w: World, w': World)
    requires NewestCarries(m, w) && |w'.flights| == |w.flights|
    requires forall i :: 0 <= i < |w.flights| ==> w'.flights[i].place == w.flights[i].place
    requires w'.s.issued == w.s.issued && w'.s.precision == w.s.precision
    requires w'.s.restore.Keys <= w.s.restore.Keys
    requires forall k :: k in w'.s.restore ==> w'.s.restore[k] == w.s.restore[k]
    ensures NewestCarries(m, w')
  {
    LastOnSamePlaces(m.route, w.flights, w'.flights);
  }

  lemma OnlineStaysAlone(m: Mouse, w: World, e: Event)
    requires OnlineAlone(m, w.s) && Enabled(m, w, e)
    ensures OnlineAlone(m, Step(m, w, e).s)
  {
    if OfFlight(e) {
      FlightKeepsPlaces(m, w, e);
    } else {
      RequestStaysAlone(m, w, e);
    }
  }

  lemma RequestStaysAlone(m: Mouse, w: World, e: Event)
    requires OnlineAlone(m, w.s) && Enabled(m, w, e) && !OfFlight(e)
    ensures OnlineAlone(m, Step(m, w, e).s)
  {
    match e
    case AppWrites(route, saved, order) => AppOnlineAlone(m, w.s, order, saved);
    case ConfigReload(change, mice, order) =>
      ReloadOnline(w.s, change, mice);
      EndModesOnline(ReloadMice(w.s, change, mice).state, order);
    case _ =>
  }

  lemma AppOnlineAlone(m: Mouse, s: State, order: seq<Key>, saved: SavedSpeed)
    requires OnlineAlone(m, s) && forall k :: k in order ==> k in s.online && s.online[k].saved.Scaled? == saved.Scaled?
    ensures OnlineAlone(m, AppFold(s, order, saved).0) && AppFold(s, order, saved).0.online.Keys == s.online.Keys
  {
    if order != [] {
      AppOnlineAlone(m, s, order[..|order| - 1], saved);
    }
  }

  lemma ReloadOnline(s: State, change: Key -> ReloadChange, mice: seq<SpeedMouse>)
    ensures ReloadMice(s, change, mice).state.online == s.online
  {
    if mice != [] {
      ReloadOnline(s, change, mice[..|mice| - 1]);
    }
  }

  lemma EndModesOnline(s: State, order: seq<Key>)
    ensures EndModes(s, order).online == s.online
  {
    if order != [] {
      EndModesOnline(s, order[..|order| - 1]);
    }
  }

  lemma StepCarries(m: Mouse, w: World, e: Event)
    requires NewestCarries(m, w) && OnlineAlone(m, w.s) && Enabled(m, w, e) && Steady(m, w, e)
    ensures NewestCarries(m, Step(m, w, e))
  {
    if OfSpeeds(e) {
      SpeedsCarry(m, w, e);
    } else if e.HoldShift? {
      HoldCarries(m, w, e.found);
    } else if e.ReleaseShift? {
      ReleaseCarries(m, w, e.on);
    } else {
      LifeCarries(m, w, e);
    }
  }

  lemma SpeedsCarry(m: Mouse, w: World, e: Event)
    requires NewestCarries(m, w) && OnlineAlone(m, w.s) && Enabled(m, w, e) && Steady(m, w, e) && OfSpeeds(e)
    ensures NewestCarries(m, Step(m, w, e))
  {
    match e
    case Publication(selected, online) => SilentCarries(m, w, Publish(w.s, selected, online));
    case Press(who, press) => PressCarries(m, w, who, press);
    case Reconnect(key, route, saved) => ReconnectCarries(m, w, key, route, saved);
    case AppWrites(route, saved, order) => AppCarries(m, w, route, saved, order);
    case PresetPress(route, found, dpi) =>
      PresetCarries(m, w, route, found, Set(DpiTo(Value(dpi))));
      assert Fly(PresetWrite(w.s, route, found, dpi).writes)
          == [Flight(PresetPlace(w.s, route, found).1, Set(DpiTo(Value(dpi))), Waiting)];
    case ConfigReload(change, mice, order) => ReloadCarries(m, w, change, mice, order);
    case OtherRelease(key, route, _, dpi) =>
      WriteCarries(m, w, w.s, PlaceAt(w.s, route, w.s.Pending(key)), Set(DpiTo(Value(dpi))));
  }

  lemma HoldCarries(m: Mouse, w: World, found: Option<Key>)
    requires NewestCarries(m, w) && OnlineAlone(m, w.s) && m.key in w.s.online && !m.scaled
    requires Enabled(m, w, HoldShift(m.route, found))
    ensures NewestCarries(m, Step(m, w, HoldShift(m.route, found)))
  {
    PresetCarries(m, w, m.route, found, ShiftLow(NewestCell(w), !w.known));
    SamePlacesCarries(m, LaunchLow(w, m.route, found), Step(m, w, HoldShift(m.route, found)));
  }

  lemma ReleaseCarries(m: Mouse, w: World, on: DeviceRoute)
    requires NewestCarries(m, w) && on in w.holds && m.Owns(on)
    ensures NewestCarries(m, Step(m, w, ReleaseShift(on)))
  {
    var held := w.holds[on];
    if ShiftMayRestore(w.s, m.key, held.own) {
      var w' := LaunchPlace(w, w.s.Number(on), PlaceAt(w.s, on, w.s.Pending(m.key)), ShiftBack(held.cell));
      WriteCarries(m, w, w.s, PlaceAt(w.s, on, w.s.Pending(m.key)), ShiftBack(held.cell));
      SamePlacesCarries(m, w', Step(m, w, ReleaseShift(on)));
    } else {
      SamePlacesCarries(m, w, Step(m, w, ReleaseShift(on)));
    }
  }

  /** The events of a write already numbered, and those that number none. */
  lemma LifeCarries(m: Mouse, w: World, e: Event)
    requires NewestCarries(m, w) && Enabled(m, w, e)
    requires e.CacheDpi? || e.FreshCell? || e.PowerCycle? || e.Roam? || OfFlight(e)
    ensures NewestCarries(m, Step(m, w, e))
  {
    LifeKeepsPlaces(m, w, e);
    SamePlacesCarries(m, w, Step(m, w, e));
  }

  lemma LifeKeepsPlaces(m: Mouse, w: World, e: Event)
    requires Enabled(m, w, e)
    requires e.CacheDpi? || e.FreshCell? || e.PowerCycle? || e.Roam? || OfFlight(e)
    ensures var w' := Step(m, w, e);
            && |w'.flights| == |w.flights|
            && (forall i :: 0 <= i < |w.flights| ==> w'.flights[i].place == w.flights[i].place)
            && w'.s == w.s.(restore := w'.s.restore) && w'.s.restore.Keys <= w.s.restore.Keys
            && (forall k :: k in w'.s.restore ==> w'.s.restore[k] == w.s.restore[k])
  {
    if OfFlight(e) { FlightKeepsPlaces(m, w, e); }
  }

  lemma FlightKeepsPlaces(m: Mouse, w: World, e: Event)
    requires Enabled(m, w, e) && OfFlight(e)
    ensures var w' := Step(m, w, e);
            && |w'.flights| == |w.flights|
            && (forall i :: 0 <= i < |w.flights| ==> w'.flights[i].place == w.flights[i].place)
            && (!e.Report? ==> w'.s == w.s)
            && (e.Report? ==> w'.s == w.s || exists k :: k in w.s.restore && w'.s == w.s.(restore := w.s.restore - {k}))
  {
    assert w.flights[e.i].place == Step(m, w, e).flights[e.i].place;
  }

  /** Over every run of a steady mouse, the newest write lights the LED exactly while the mode is on and carries the debt. */
  lemma {:induction false} NewestAlwaysCarries(m: Mouse, w: World, es: seq<Event>)
    requires NewestCarries(m, w) && OnlineAlone(m, w.s) && Possible(m, w, es) && SteadyRun(m, w, es)
    ensures NewestCarries(m, Follow(m, w, es))
    decreases |es|
  {
    if es != [] {
      StepCarries(m, w, es[0]);
      OnlineStaysAlone(m, w, es[0]);
      NewestAlwaysCarries(m, Step(m, w, es[0]), es[1..]);
    }
  }

  lemma NewestCarriesFromStart(m: Mouse, es: seq<Event>)
    requires m.others == {} && Possible(m, Start(m), es) && SteadyRun(m, Start(m), es)
    ensures NewestCarries(m, Follow(m, Start(m), es))
  {
    NewestAlwaysCarries(m, Start(m), es);
  }

  // --- A mouse that never entered the mode ------------------------------------------------

  ghost predicate Untouched(m: Mouse, w: World) {
    && m.key !in w.s.precision && m.key !in w.s.restore
    && (forall i :: 0 <= i < |w.flights| && m.Owns(w.flights[i].place.route) ==> Dark(w.flights[i].place))
  }

  /** No LED instruction and no debt. */
  predicate Dark(place: SpeedPlace) { place.led.None? && place.restore.None? }

  predicate TurnsOn(m: Mouse, w: World, e: Event) {
    e.Press? && Pressed(w.s, e.who, e.press) == Some(m.key)
  }

  ghost predicate NeverTurnedOn(m: Mouse, w: World, es: seq<Event>)
    requires Possible(m, w, es)
    decreases |es|
  {
    es == [] || (!TurnsOn(m, w, es[0]) && NeverTurnedOn(m, Step(m, w, es[0]), es[1..]))
  }

  ghost predicate DarkWrites(m: Mouse, writes: seq<SpeedWrite>) {
    forall i :: 0 <= i < |writes| && m.Owns(writes[i].place.route) ==> Dark(writes[i].place)
  }

  lemma LaunchUntouched(m: Mouse, w: World, o: Outcome)
    requires Untouched(m, w) && m.key !in o.state.precision && m.key !in o.state.restore
    requires DarkWrites(m, o.writes)
    ensures Untouched(m, Launch(w, o))
  {}

  lemma PlaceUntouched(m: Mouse, w: World, s: State, place: SpeedPlace, job: Job)
    requires Untouched(m, w) && m.key !in s.precision && m.key !in s.restore
    requires m.Owns(place.route) ==> Dark(place)
    ensures Untouched(m, LaunchPlace(w, s, place, job))
  {}

  lemma AppUntouched(m: Mouse, s: State, order: seq<Key>, saved: SavedSpeed)
    requires m.key !in s.precision && m.key !in s.restore
    ensures var (t, restore) := AppFold(s, order, saved);
            && m.key !in t.precision && m.key !in t.restore
            && (restore.Some? ==> restore.value.key in order && restore.value.key != m.key)
  {
    if order != [] {
      AppUntouched(m, s, order[..|order| - 1], saved);
    }
  }

  lemma {:induction false} ReloadUntouched(m: Mouse, s: State, change: Key -> ReloadChange, mice: seq<SpeedMouse>)
    requires m.key !in s.precision && m.key !in s.restore
    requires forall x :: x in mice ==> Alone(m, x.key, x.route, x.saved)
    ensures var o := ReloadMice(s, change, mice);
            m.key !in o.state.precision && m.key !in o.state.restore && DarkWrites(m, o.writes)
  {
    if mice != [] {
      var init, x := mice[..|mice| - 1], mice[|mice| - 1];
      assert x in mice;
      ReloadUntouched(m, s, change, init);
      assert DarkWrites(m, ReloadOne(ReloadMice(s, change, init).state, change(x.key), x).writes);
    }
  }

  lemma EndModesUntouched(m: Mouse, s: State, order: seq<Key>)
    requires m.key !in s.precision && m.key !in s.restore && m.key !in order
    ensures m.key !in EndModes(s, order).precision && m.key !in EndModes(s, order).restore
  {
    if order != [] {
      EndModesUntouched(m, s, order[..|order| - 1]);
    }
  }

  lemma AppStepUntouched(m: Mouse, w: World, e: Event)
    requires Untouched(m, w) && OnlineAlone(m, w.s) && Enabled(m, w, e) && e.AppWrites?
    ensures Untouched(m, Step(m, w, e))
  {
    AppUntouched(m, w.s, e.order, e.saved);
    assert m.Owns(e.route) ==> forall k :: k in AppKeys(w.s, e.route, e.saved) ==> k == m.key;
    LaunchUntouched(m, w, AppWrite(w.s, e.route, e.saved, e.order));
  }

  lemma ReloadStepUntouched(m: Mouse, w: World, e: Event)
    requires Untouched(m, w) && Enabled(m, w, e) && e.ConfigReload?
    ensures Untouched(m, Step(m, w, e))
  {
    ReloadUntouched(m, w.s, e.change, e.mice);
    EndModesUntouched(m, ReloadMice(w.s, e.change, e.mice).state, e.order);
    LaunchUntouched(m, w, Reload(w.s, e.change, e.mice, e.order));
  }

  lemma HoldUntouched(m: Mouse, w: World, e: Event)
    requires Untouched(m, w) && OnlineAlone(m, w.s) && Enabled(m, w, e) && (e.HoldShift? || e.ReleaseShift? || e.OtherRelease?)
    ensures Untouched(m, Step(m, w, e))
  {
    match e
    case HoldShift(on, found) =>
      var (s, place) := PresetPlace(w.s, on, found);
      PlaceUntouched(m, w, s, place, ShiftLow(NewestCell(w), !w.known));
    case ReleaseShift(on) =>
      PlaceUntouched(m, w, w.s.Number(on), PlaceAt(w.s, on, w.s.Pending(m.key)), ShiftBack(w.holds[on].cell));
    case OtherRelease(key, route, _, dpi) =>
      PlaceUntouched(m, w, w.s.Number(route), PlaceAt(w.s, route, w.s.Pending(key)), Set(DpiTo(Value(dpi))));
  }

  lemma StepUntouched(m: Mouse, w: World, e: Event)
    requires Untouched(m, w) && OnlineAlone(m, w.s) && Enabled(m, w, e) && !TurnsOn(m, w, e)
    ensures Untouched(m, Step(m, w, e))
  {
    match e
    case Publication(_, _) =>
    case Press(who, press) => LaunchUntouched(m, w, TogglePrecision(w.s, who, press));
    case Reconnect(key, route, saved) => LaunchUntouched(m, w, Reapply(w.s, key, route, saved));
    case AppWrites(_, _, _) => AppStepUntouched(m, w, e);
    case PresetPress(route, found, dpi) => LaunchUntouched(m, w, PresetWrite(w.s, route, found, dpi));
    case ConfigReload(_, _, _) => ReloadStepUntouched(m, w, e);
    case HoldShift(_, _) => HoldUntouched(m, w, e);
    case ReleaseShift(_) => HoldUntouched(m, w, e);
    case OtherRelease(_, _, _, _) => HoldUntouched(m, w, e);
    case _ => LifeKeepsPlaces(m, w, e);
  }

  /** A mouse whose precision button was never pressed never gets an LED instruction. */
  lemma {:induction false} NeverOnNoLed(m: Mouse, w: World, es: seq<Event>)
    requires Untouched(m, w) && OnlineAlone(m, w.s) && Possible(m, w, es) && NeverTurnedOn(m, w, es)
    ensures Untouched(m, Follow(m, w, es))
    decreases |es|
  {
    if es != [] {
      StepUntouched(m, w, es[0]);
      OnlineStaysAlone(m, w, es[0]);
      NeverOnNoLed(m, Step(m, w, es[0]), es[1..]);
    }
  }
}
