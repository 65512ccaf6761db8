/**
  No mouse is left slow and forgotten (pointer_speed.rs with the write bodies of hardware.rs and
  the held DPI shift of runtime.rs).

  A run interleaves the operations of `PointerSpeeds` on any number of mice with the life of every
  numbered write: it waits, takes its turn (and is skipped when a newer number exists), reads the
  sensor or chooses its DPI, lands or fails, and reports its landing later. One mouse is watched. It
  roams between routes of its own, and a write reaches it only on the route it is on.
*/
module PrecisionSafety {
  import opened Basics
  import opened P = PointerSpeeds

  /**
    The watched mouse: its key, the route it starts on and the other routes it may take, its kind, and whether
    its sensor lists a default DPI.
  */
  datatype Mouse = Mouse(key: Key, route: DeviceRoute, others: set<DeviceRoute>, scaled: bool, hasDefault: bool) {
    predicate Owns(r: DeviceRoute) { r == route || r in others }
  }

  /** `LeftSlow`: slow because the sensor reported no default DPI to return to. */
  datatype Speed = Own | AtPrecision | LeftSlow

  datatype Job =
    | Set(target: SpeedTarget)
    | ShiftLow(cell: nat, senses: bool)
    | ShiftBack(cell: nat)

  /** How far a running write is: a low write may have read the sensor, a shift restore has chosen its DPI. */
  datatype Progress = Began | Sensed | Aimed(speed: Speed)
  datatype Phase = Waiting | Running(progress: Progress) | Landed | Done
  datatype Flight = Flight(place: SpeedPlace, job: Job, phase: Phase)

  /** A held DPI shift of the watched mouse: its `DpiBeforeShift` cell and the restore its low write carries. */
  datatype Hold = Hold(cell: nat, own: Option<Restore>)

  /**
    `at` is the route the mouse is on, whatever the agent has heard of it. `known` tells whether the DPI cycle
    knows the DPI last set. `cells` are the `DpiBeforeShift` cells made so far, the newest last, each with the
    speed that was read into it. `holds` are the shifts held, by route.
  */
  datatype World = World(
    s: State, flights: seq<Flight>, speed: Speed, at: DeviceRoute, known: bool, cells: seq<Option<Speed>>,
    holds: map<DeviceRoute, Hold>)

  function Start(m: Mouse): World { World(INITIAL, [], Own, m.route, false, [None], map[]) }

  datatype Event =
    | Publication(selected: Option<Key>, online: map<Key, OnlineMouse>)
    | Press(who: Option<Key>, press: PrecisionPress)
    | Reconnect(key: Key, route: DeviceRoute, saved: SavedSpeed)
    | AppWrites(route: DeviceRoute, saved: SavedSpeed, order: seq<Key>)
    | PresetPress(route: DeviceRoute, found: Option<Key>, dpi: Dpi)
    | ConfigReload(change: Key -> ReloadChange, mice: seq<SpeedMouse>, order: seq<Key>)
    | OtherRelease(key: Key, route: DeviceRoute, own: Option<Restore>, dpi: Dpi)
    | HoldShift(on: DeviceRoute, found: Option<Key>)
    | ReleaseShift(on: DeviceRoute)
    | CacheDpi(known: bool)
    | FreshCell
    | PowerCycle
    | Roam(to: DeviceRoute)
    | TakeTurn(i: nat)
    | Abandon(i: nat)
    | ReadSensor(i: nat)
    | Choose(i: nat)
    | Land(i: nat)
    | Fail(i: nat, took: bool)
    | Report(i: nat)

  // --- What can happen, and what it does --------------------------------------

  /** The watched mouse is alone on its routes, and its kind never changes. */
  predicate Alone(m: Mouse, key: Key, route: DeviceRoute, saved: SavedSpeed) {
    && (key == m.key <==> m.Owns(route))
    && (key == m.key ==> saved.Scaled? == m.scaled)
  }

  ghost predicate Enabled(m: Mouse, w: World, e: Event) {
    match e
    case Publication(_, online) => forall k :: k in online ==> Alone(m, k, online[k].route, online[k].saved)
    case Press(_, _) => true
    case Reconnect(key, route, saved) => Alone(m, key, route, saved)
    case AppWrites(route, saved, order) => Enumerates(order, AppKeys(w.s, route, saved))
    case PresetPress(route, found, _) => Finds(found, PresetKeys(w.s, route))
    case ConfigReload(change, mice, order) =>
      && (forall x :: x in mice ==> Alone(m, x.key, x.route, x.saved))
      && Enumerates(order, ReloadOffline(ReloadMice(w.s, change, mice).state, change))
    case OtherRelease(key, route, own, _) => key != m.key && !m.Owns(route) && ShiftMayRestore(w.s, key, own)
    case HoldShift(on, found) => m.Owns(on) && on !in w.holds && Finds(found, PresetKeys(w.s, on))
    case ReleaseShift(on) => m.Owns(on) && on in w.holds
    case CacheDpi(_) => true
    case FreshCell => true
    case PowerCycle => true
    case Roam(to) => m.Owns(to)
    case TakeTurn(i) =>
      i < |w.flights| && w.flights[i].phase.Waiting?
      && forall j :: 0 <= j < |w.flights| && w.flights[j].place.route == w.flights[i].place.route
                     ==> !w.flights[j].phase.Running?
    case Abandon(i) => i < |w.flights| && w.flights[i].phase.Waiting?
    case ReadSensor(i) =>
      i < |w.flights| && w.flights[i].phase == Running(Began) && w.flights[i].place.route == w.at
      && w.flights[i].job.ShiftLow? && w.flights[i].job.senses
    case Choose(i) => i < |w.flights| && w.flights[i].phase == Running(Began) && w.flights[i].job.ShiftBack?
    case Land(i) =>
      i < |w.flights| && w.flights[i].phase.Running?
      && (m.Owns(w.flights[i].place.route) ==> w.flights[i].place.route == w.at)
      && (w.flights[i].job.ShiftLow? && w.flights[i].job.senses ==> w.flights[i].phase.progress.Sensed?)
      && (w.flights[i].job.ShiftBack? ==> w.flights[i].phase.progress.Aimed?)
    case Fail(i, _) => i < |w.flights| && w.flights[i].phase.Running?
    case Report(i) => i < |w.flights| && w.flights[i].phase.Landed?
  }

  function Cell(w: World, c: nat): Option<Speed> {
    if c < |w.cells| then w.cells[c] else None
  }

  function SetCell(w: World, c: nat, v: Option<Speed>): World {
    if c < |w.cells| then w.(cells := w.cells[c := v]) else w
  }

  function SetPhase(w: World, i: nat, phase: Phase): World
    requires i < |w.flights|
  {
    w.(flights := w.flights[i := w.flights[i].(phase := phase)])
  }

  /** The speed of the watched mouse once it took the write `f`; a write of the other kind does not set it. */
  function Effect(m: Mouse, w: World, f: Flight): Speed {
    if f.place.route != w.at then w.speed else
    match f.job
    case Set(target) =>
      if target.ScaledTo? != m.scaled then w.speed
      else if f.place.led == Some(true) then AtPrecision
      else if target == DpiTo(Default) && !m.hasDefault then (if w.speed.AtPrecision? then LeftSlow else w.speed)
      else Own
    case ShiftLow(_, _) => if m.scaled then w.speed else Own
    case ShiftBack(_) =>
      if !m.scaled && f.phase.Running? && f.phase.progress.Aimed? then f.phase.progress.speed else w.speed
  }

  function Fly(writes: seq<SpeedWrite>): seq<Flight> {
    seq(|writes|, i requires 0 <= i < |writes| => Flight(writes[i].place, Set(writes[i].target), Waiting))
  }

  function Launch(w: World, o: Outcome): World {
    w.(s := o.state, flights := w.flights + Fly(o.writes))
  }

  function LaunchPlace(w: World, s: State, place: SpeedPlace, job: Job): World {
    w.(s := s, flights := w.flights + [Flight(place, job, Waiting)])
  }

  function NewestCell(w: World): nat {
    if |w.cells| == 0 then 0 else |w.cells| - 1
  }

  /** The restore a preset write of the watched mouse carries. */
  function LowRestore(w: World, found: Option<Key>): Option<Restore> {
    if found.Some? then PresetEnd(w.s, found).Pending(found.value) else None
  }

  /** The low write of a held shift. */
  function LaunchLow(w: World, on: DeviceRoute, found: Option<Key>): World {
    var (s, place) := PresetPlace(w.s, on, found);
    LaunchPlace(w, s, place, ShiftLow(NewestCell(w), !w.known))
  }

  /** A shift restore aims at the DPI last set, else at the reading; with neither there is nothing to restore. */
  function Chosen(w: World, c: nat): Phase {
    if w.known then Running(Aimed(Own))
    else match Cell(w, c) case Some(v) => Running(Aimed(v)) case None => Done
  }

  ghost function Step(m: Mouse, w: World, e: Event): World
    requires Enabled(m, w, e)
  {
    match e
    case Publication(selected, online) => w.(s := Publish(w.s, selected, online))
    case Press(who, press) => Launch(w, TogglePrecision(w.s, who, press))
    case Reconnect(key, route, saved) => Launch(w, Reapply(w.s, key, route, saved))
    case AppWrites(route, saved, order) => Launch(w, AppWrite(w.s, route, saved, order))
    case PresetPress(route, found, dpi) => Launch(w, PresetWrite(w.s, route, found, dpi))
    case ConfigReload(change, mice, order) => Launch(w, Reload(w.s, change, mice, order))
    case OtherRelease(key, route, _, dpi) =>
      LaunchPlace(w, w.s.Number(route), PlaceAt(w.s, route, w.s.Pending(key)), Set(DpiTo(Value(dpi))))
    case HoldShift(on, found) =>
      var held := LaunchLow(w, on, found).(holds := w.holds[on := Hold(NewestCell(w), LowRestore(w, found))]);
      if w.known then SetCell(held, NewestCell(w), Some(Own)) else held
    case ReleaseShift(on) =>
      var held := w.holds[on];
      if ShiftMayRestore(w.s, m.key, held.own) then
        LaunchPlace(w, w.s.Number(on), PlaceAt(w.s, on, w.s.Pending(m.key)), ShiftBack(held.cell))
          .(holds := w.holds - {on})
      else
        SetCell(w, held.cell, None).(holds := w.holds - {on})
    case CacheDpi(known) => w.(known := known)
    case FreshCell => w.(cells := w.cells + [None])
    case PowerCycle => w.(speed := Own)
    case Roam(to) => w.(at := to)
    case TakeTurn(i) =>
      var f := w.flights[i];
      SetPhase(w, i, if f.place.ticket == w.s.Newest(f.place.route) then Running(Began) else Done)
    case Abandon(i) => SetPhase(w, i, Done)
    case ReadSensor(i) =>
      var c := w.flights[i].job.cell;
      var read := SetPhase(w, i, Running(Sensed));
      if Cell(w, c).None? then SetCell(read, c, Some(if m.scaled then Own else w.speed)) else read
    case Choose(i) => SetPhase(w, i, Chosen(w, w.flights[i].job.cell))
    case Land(i) =>
      var f := w.flights[i];
      var landed := SetPhase(w, i, Landed).(speed := Effect(m, w, f));
      if f.job.ShiftBack? then SetCell(landed, f.job.cell, None) else landed
    case Fail(i, took) =>
      SetPhase(w, i, Done).(speed := if took then Effect(m, w, w.flights[i]) else w.speed)
    case Report(i) =>
      var restore := w.flights[i].place.restore;
      SetPhase(w, i, Done).(s := if restore.Some? then Restored(w.s, restore.value) else w.s)
  }

  // --- The invariant ------------------------------------------------------------

  /** `f` sets the precision speed of the watched mouse when it lands. */
  predicate Slows(m: Mouse, f: Flight) {
    m.Owns(f.place.route) && f.place.led == Some(true)
  }

  /** `f` runs, or would run if its turn came now. */
  predicate MayRun(w: World, f: Flight) {
    f.phase.Running? || (f.phase.Waiting? && f.place.ticket == w.s.Newest(f.place.route))
  }

  predicate Carries(m: Mouse, f: Flight, g: nat) {
    f.place.restore == Some(Restore(m.key, g))
  }

  /** `f` is still to read the sensor of the watched mouse before it writes. */
  predicate WillSense(m: Mouse, f: Flight) {
    m.Owns(f.place.route) && f.job.ShiftLow? && f.job.senses && (f.phase.Waiting? || f.phase == Running(Began))
  }

  /** `f` is still to read the sensor, may run, and reaches the mouse. */
  predicate SensesNow(m: Mouse, w: World, f: Flight) {
    WillSense(m, f) && MayRun(w, f) && f.place.route == w.at
  }

  predicate OwnKind(m: Mouse, job: Job) {
    match job case Set(target) => target.ScaledTo? == m.scaled case _ => !m.scaled
  }

  /** No running write on `r` is about to slow the mouse, were it there. */
  ghost predicate NoneSlowing(m: Mouse, w: World, r: DeviceRoute) {
    forall j :: 0 <= j < |w.flights| && Slows(m, w.flights[j]) && w.flights[j].place.route == r
                ==> !w.flights[j].phase.Running?
  }

  /** No write on `r` can slow the mouse any more, were it there. */
  ghost predicate NoneToSlow(m: Mouse, w: World, r: DeviceRoute) {
    forall j :: 0 <= j < |w.flights| && Slows(m, w.flights[j]) && w.flights[j].place.route == r
                ==> !MayRun(w, w.flights[j])
  }

  /** Not slow, and no running write is about to slow the mouse. */
  ghost predicate Calm(m: Mouse, w: World) { !w.speed.AtPrecision? && NoneSlowing(m, w, w.at) }

  /** Calm, and no waiting write can slow the mouse any more on the route it is on. */
  ghost predicate Quiet(m: Mouse, w: World) { !w.speed.AtPrecision? && NoneToSlow(m, w, w.at) }

  /** A write that carries the debt of the mouse has landed and is still to report it. */
  ghost predicate Paid(m: Mouse, w: World) {
    m.key in w.s.restore
    && exists i :: 0 <= i < |w.flights| && Carries(m, w.flights[i], w.s.restore[m.key]) && w.flights[i].phase.Landed?
  }

  ghost predicate Ordered(w: World) {
    && (forall i :: 0 <= i < |w.flights| ==> w.flights[i].place.ticket <= w.s.Newest(w.flights[i].place.route))
    && (forall i, j :: 0 <= i < j < |w.flights| && w.flights[i].place.route == w.flights[j].place.route
          ==> w.flights[i].place.ticket < w.flights[j].place.ticket)
    && (forall i, j :: 0 <= i < j < |w.flights| && w.flights[i].place.route == w.flights[j].place.route
          ==> !(w.flights[i].phase.Running? && w.flights[j].phase.Running?))
  }

  ghost predicate Dated(m: Mouse, w: World) {
    && (forall k :: k in w.s.restore ==> w.s.restore[k] <= w.s.generation)
    && (forall i :: 0 <= i < |w.flights| && w.flights[i].place.restore.Some?
          ==> w.flights[i].place.restore.value.generation <= w.s.generation)
    && (forall i :: 0 <= i < |w.flights| && w.flights[i].place.restore.Some?
                    && w.flights[i].place.restore.value.key == m.key
          ==> m.Owns(w.flights[i].place.route) && w.flights[i].place.led == Some(false)
              && OwnKind(m, w.flights[i].job))
  }

  /** What a debt means: its carriers are newer than the slowing writes of their route, and once one landed the mouse is quiet. */
  ghost predicate Debt(m: Mouse, w: World) {
    m.key in w.s.restore ==>
      && (forall i, j ::
            0 <= i < |w.flights| && 0 <= j < |w.flights| && w.flights[i].place.route == w.flights[j].place.route
            && Carries(m, w.flights[i], w.s.restore[m.key]) && Slows(m, w.flights[j])
            ==> j < i)
      && (Paid(m, w) ==> Quiet(m, w))
  }

  ghost predicate Readings(m: Mouse, w: World) {
    && (forall c :: 0 <= c < |w.cells| ==> w.cells[c] != Some(AtPrecision))
    && (forall i :: 0 <= i < |w.flights| ==> w.flights[i].phase != Running(Aimed(AtPrecision)))
    && (forall i :: 0 <= i < |w.flights| && Slows(m, w.flights[i])
          ==> w.flights[i].job.Set? && w.flights[i].job.target.ScaledTo? == m.scaled)
    && (forall i :: 0 <= i < |w.flights| && SensesNow(m, w, w.flights[i]) ==> m.scaled || Calm(m, w))
  }

  ghost predicate Inv(m: Mouse, w: World) {
    && w.s.precision !! w.s.restore.Keys && m.Owns(w.at) && w.cells != []
    && (forall k :: k in w.s.online ==> Alone(m, k, w.s.online[k].route, w.s.online[k].saved))
    && Ordered(w) && Dated(m, w) && Debt(m, w) && Readings(m, w)
    && (forall r :: r in w.holds ==> m.scaled ==> w.holds[r].own.None?)
    && (m.key !in w.s.precision && m.key !in w.s.restore ==> Quiet(m, w))
  }

  // --- The primitive moves keep it -------------------------------------------------

  /** Only modes, debts and the online mice differ. */
  ghost predicate SameWrites(w: World, w': World) {
    w' == w.(s := w'.s) && w'.s.issued == w.s.issued
  }

  lemma SameWritesKeep(m: Mouse, w: World, w': World)
    requires SameWrites(w, w')
    ensures Ordered(w) ==> Ordered(w')
    ensures Quiet(m, w') == Quiet(m, w) && Calm(m, w') == Calm(m, w)
  {
    assert forall f: Flight :: MayRun(w', f) == MayRun(w, f);
  }

  lemma SameWritesKeepReadings(m: Mouse, w: World, w': World)
    requires SameWrites(w, w') && Readings(m, w)
    ensures Readings(m, w')
  {
    assert forall f: Flight :: MayRun(w', f) == MayRun(w, f);
    assert Calm(m, w') == Calm(m, w);
  }

  lemma EndKeeps(m: Mouse, w: World, key: Key)
    requires Inv(m, w)
    ensures Inv(m, w.(s := w.s.EndMode(key)))
  {
    var w' := w.(s := w.s.EndMode(key));
    SameWritesKeep(m, w, w');
    SameWritesKeepReadings(m, w, w');
    EndKeepsDebt(m, w, key);
  }

  /** A new debt has no carrier yet. */
  lemma EndKeepsDebt(m: Mouse, w: World, key: Key)
    requires Dated(m, w) && Debt(m, w)
    ensures var w' := w.(s := w.s.EndMode(key)); Dated(m, w') && Debt(m, w')
  {
    SameWritesKeep(m, w, w.(s := w.s.EndMode(key)));
  }

  lemma BeginKeeps(m: Mouse, w: World, key: Key)
    requires Inv(m, w)
    ensures Inv(m, w.(s := w.s.BeginMode(key)))
  {
    var w' := w.(s := w.s.BeginMode(key));
    SameWritesKeep(m, w, w');
    SameWritesKeepReadings(m, w, w');
  }

  /** `w'` is `w` with the write `f` numbered last on its route. */
  ghost predicate Appends(w: World, w': World, f: Flight) {
    && w' == w.(s := w.s.Number(f.place.route), flights := w.flights + [f])
    && f.place.ticket == w.s.Newest(f.place.route) + 1 && f.phase.Waiting?
  }

  lemma AppendKeepsOrder(m: Mouse, w: World, w': World, f: Flight)
    requires Ordered(w) && Appends(w, w', f)
    ensures Ordered(w')
    ensures forall i :: 0 <= i < |w.flights| && MayRun(w', w.flights[i]) ==> MayRun(w, w.flights[i])
    ensures Calm(m, w) ==> Calm(m, w')
    ensures Quiet(m, w) && !Slows(m, f) ==> Quiet(m, w')
  {}

  lemma AppendKeepsReadings(m: Mouse, w: World, w': World, f: Flight)
    requires Ordered(w) && Readings(m, w) && Appends(w, w', f)
    requires Slows(m, f) ==> f.job.Set? && f.job.target.ScaledTo? == m.scaled
    requires WillSense(m, f) && f.place.route == w.at ==> m.scaled || Calm(m, w)
    ensures Readings(m, w')
  {
    AppendKeepsOrder(m, w, w', f);
  }

  lemma AppendKeepsDebt(m: Mouse, w: World, w': World, f: Flight)
    requires Ordered(w) && Debt(m, w) && Appends(w, w', f)
    requires Slows(m, f) ==> m.key !in w.s.restore
    ensures Debt(m, w')
  {
    AppendKeepsOrder(m, w, w', f);
  }

  /** A write that slows nobody may be numbered at any time, if the debt it carries is the pending one. */
  lemma LaunchKeeps(m: Mouse, w: World, route: DeviceRoute, restore: Option<Restore>, job: Job)
    requires Inv(m, w)
    requires restore.Some? ==> restore.value.generation <= w.s.generation
    requires restore.Some? && restore.value.key == m.key ==> m.Owns(route) && OwnKind(m, job)
    requires m.Owns(route) && job.ShiftLow? && job.senses && route == w.at ==> m.scaled || Calm(m, w)
    ensures Inv(m, LaunchPlace(w, w.s.Number(route), PlaceAt(w.s, route, restore), job))
  {
    var f := Flight(PlaceAt(w.s, route, restore), job, Waiting);
    var w' := LaunchPlace(w, w.s.Number(route), PlaceAt(w.s, route, restore), job);
    AppendKeepsOrder(m, w, w', f);
    AppendKeepsReadings(m, w, w', f);
    AppendKeepsDebt(m, w, w', f);
  }

  lemma LaunchOwnKeeps(m: Mouse, w: World, route: DeviceRoute, target: SpeedTarget, restore: Option<Restore>)
    requires Inv(m, w)
    requires restore.Some? ==> restore.value.generation <= w.s.generation
    requires restore.Some? && restore.value.key == m.key ==> m.Owns(route) && target.ScaledTo? == m.scaled
    ensures Inv(m, Launch(w, WriteOwn(w.s, route, target, restore)))
  {
    var o := WriteOwn(w.s, route, target, restore);
    assert Fly(o.writes) == [Flight(PlaceAt(w.s, route, restore), Set(target), Waiting)];
    LaunchKeeps(m, w, route, restore, Set(target));
  }

  lemma LaunchSlowKeeps(m: Mouse, w: World, route: DeviceRoute, saved: SavedSpeed)
    requires Inv(m, w)
    requires m.Owns(route) ==> m.key in w.s.precision && saved.Scaled? == m.scaled
    ensures Inv(m, Launch(w, WritePrecision(w.s, route, saved)))
  {
    var o := WritePrecision(w.s, route, saved);
    var f := Flight(o.writes[0].place, Set(o.writes[0].target), Waiting);
    assert Fly(o.writes) == [f];
    var w' := Launch(w, o);
    AppendKeepsOrder(m, w, w', f);
    AppendKeepsReadings(m, w, w', f);
    AppendKeepsDebt(m, w, w', f);
  }

  // --- The operations keep it ---------------------------------------------------

  lemma PressOffKeeps(m: Mouse, w: World, k: Key)
    requires Inv(m, w) && k in w.s.online
    ensures var t := w.s.EndMode(k);
            Inv(m, Launch(w, WriteOwn(t, w.s.online[k].route, w.s.online[k].saved.Restored(), t.Pending(k))))
  {
    EndKeeps(m, w, k);
    var t := w.s.EndMode(k);
    LaunchOwnKeeps(m, w.(s := t), w.s.online[k].route, w.s.online[k].saved.Restored(), t.Pending(k));
  }

  lemma PressOnKeeps(m: Mouse, w: World, k: Key)
    requires Inv(m, w) && k in w.s.online
    ensures Inv(m, Launch(w, WritePrecision(w.s.BeginMode(k), w.s.online[k].route, w.s.online[k].saved)))
  {
    BeginKeeps(m, w, k);
    LaunchSlowKeeps(m, w.(s := w.s.BeginMode(k)), w.s.online[k].route, w.s.online[k].saved);
  }

  lemma PressKeeps(m: Mouse, w: World, who: Option<Key>, press: PrecisionPress)
    requires Inv(m, w)
    ensures Inv(m, Launch(w, TogglePrecision(w.s, who, press)))
  {
    match Pressed(w.s, who, press)
    case None => assert w.flights + Fly([]) == w.flights;
    case Some(k) => if k in w.s.precision { PressOffKeeps(m, w, k); } else { PressOnKeeps(m, w, k); }
  }

  lemma ReconnectKeeps(m: Mouse, w: World, key: Key, route: DeviceRoute, saved: SavedSpeed)
    requires Inv(m, w) && Alone(m, key, route, saved)
    ensures Inv(m, Launch(w, Reapply(w.s, key, route, saved)))
  {
    if key in w.s.precision {
      LaunchSlowKeeps(m, w, route, saved);
    } else if key in w.s.restore {
      LaunchOwnKeeps(m, w, route, saved.Restored(), w.s.Pending(key));
    } else {
      match saved.Saved()
      case Some(target) => LaunchOwnKeeps(m, w, route, target, None);
      case None => assert w.flights + Fly([]) == w.flights;
    }
  }

  lemma PublishKeeps(m: Mouse, w: World, selected: Option<Key>, online: map<Key, OnlineMouse>)
    requires Inv(m, w)
    requires forall k :: k in online ==> Alone(m, k, online[k].route, online[k].saved)
    ensures Inv(m, w.(s := Publish(w.s, selected, online)))
  {
    var w' := w.(s := Publish(w.s, selected, online));
    SameWritesKeep(m, w, w');
    SameWritesKeepReadings(m, w, w');
  }

  lemma AppOneKeeps(m: Mouse, w: World, key: Key, saved: SavedSpeed)
    requires Inv(m, w)
    requires m.key == key ==> saved.Scaled? == m.scaled
    ensures Inv(m, w.(s := AppOne(w.s, key, saved)))
  {
    var ends := key in w.s.precision || key in w.s.restore;
    if ends {
      EndKeeps(m, w, key);
    }
    var t := if ends then w.s.EndMode(key) else w.s;
    if key in t.online {
      PublishKeeps(m, w.(s := t), t.selected, t.online[key := t.online[key].(saved := saved)]);
    }
  }

  lemma {:induction false} AppFoldKeeps(m: Mouse, w: World, order: seq<Key>, saved: SavedSpeed)
    requires Inv(m, w)
    requires m.key in order ==> saved.Scaled? == m.scaled
    ensures Inv(m, w.(s := AppFold(w.s, order, saved).0))
  {
    if order != [] {
      var init, key := order[..|order| - 1], order[|order| - 1];
      assert key in order && (m.key in init ==> m.key in order);
      AppFoldKeeps(m, w, init, saved);
      AppOneKeeps(m, w.(s := AppFold(w.s, init, saved).0), key, saved);
    }
  }

  lemma {:induction false} AppFoldOwes(s: State, order: seq<Key>, saved: SavedSpeed)
    ensures var (t, restore) := AppFold(s, order, saved);
            restore.Some? ==> restore.value.key in order && restore.value.generation <= t.generation
  {
    if order != [] {
      AppFoldOwes(s, order[..|order| - 1], saved);
    }
  }

  lemma AppKeeps(m: Mouse, w: World, route: DeviceRoute, saved: SavedSpeed, order: seq<Key>)
    requires Inv(m, w) && (m.key in order ==> m.Owns(route) && saved.Scaled? == m.scaled)
    ensures Inv(m, Launch(w, AppWrite(w.s, route, saved, order)))
  {
    AppFoldKeeps(m, w, order, saved);
    AppFoldOwes(w.s, order, saved);
    var (t, restore) := AppFold(w.s, order, saved);
    LaunchOwnKeeps(m, w.(s := t), route, saved.Restored(), restore);
  }

  lemma AppKeysAreOwn(m: Mouse, w: World, route: DeviceRoute, saved: SavedSpeed, order: seq<Key>)
    requires forall k :: k in w.s.online ==> Alone(m, k, w.s.online[k].route, w.s.online[k].saved)
    requires Enumerates(order, AppKeys(w.s, route, saved))
    ensures m.key in order ==> m.Owns(route) && saved.Scaled? == m.scaled
  {
    assert m.key in order <==> m.key in AppKeys(w.s, route, saved);
  }

  lemma PresetEndKeeps(m: Mouse, w: World, found: Option<Key>)
    requires Inv(m, w)
    ensures Inv(m, w.(s := PresetEnd(w.s, found)))
  {
    if found.Some? && found.value in w.s.precision {
      EndKeeps(m, w, found.value);
    }
  }

  lemma PresetKeeps(m: Mouse, w: World, route: DeviceRoute, found: Option<Key>, dpi: Dpi)
    requires Inv(m, w) && Finds(found, PresetKeys(w.s, route))
    ensures Inv(m, Launch(w, PresetWrite(w.s, route, found, dpi)))
  {
    PresetEndKeeps(m, w, found);
    var t := PresetEnd(w.s, found);
    LaunchOwnKeeps(m, w.(s := t), route, DpiTo(Value(dpi)), if found.Some? then t.Pending(found.value) else None);
  }

  lemma ReloadOneKeeps(m: Mouse, w: World, change: ReloadChange, x: SpeedMouse)
    requires Inv(m, w) && Alone(m, x.key, x.route, x.saved)
    ensures Inv(m, Launch(w, ReloadOne(w.s, change, x)))
  {
    if x.key in w.s.precision && change.EndsPrecision() {
      EndKeeps(m, w, x.key);
      var t := w.s.EndMode(x.key);
      LaunchOwnKeeps(m, w.(s := t), x.route, x.saved.Restored(), t.Pending(x.key));
    } else if change.speed && x.key in w.s.restore {
      LaunchOwnKeeps(m, w, x.route, x.saved.Restored(), w.s.Pending(x.key));
    } else if change.speed && x.saved.Scaled? && x.saved.speed.Some? {
      LaunchOwnKeeps(m, w, x.route, ScaledTo(x.saved.speed.value), None);
    } else {
      assert w.flights + Fly([]) == w.flights;
    }
  }

  lemma {:induction false} ReloadMiceKeeps(m: Mouse, w: World, change: Key -> ReloadChange, mice: seq<SpeedMouse>)
    requires Inv(m, w)
    requires forall x :: x in mice ==> Alone(m, x.key, x.route, x.saved)
    ensures Inv(m, Launch(w, ReloadMice(w.s, change, mice)))
  {
    if mice == [] {
      assert w.flights + Fly([]) == w.flights;
    } else {
      var init, x := mice[..|mice| - 1], mice[|mice| - 1];
      ReloadMiceKeeps(m, w, change, init);
      var before := ReloadMice(w.s, change, init);
      var mid := Launch(w, before);
      ReloadOneKeeps(m, mid, change(x.key), x);
      var one := ReloadOne(before.state, change(x.key), x);
      LaunchJoins(w, before, one);
    }
  }

  lemma LaunchJoins(w: World, first: Outcome, second: Outcome)
    ensures Launch(Launch(w, first), second) == Launch(w, Outcome(second.state, first.writes + second.writes))
  {
    assert Fly(first.writes + second.writes) == Fly(first.writes) + Fly(second.writes);
  }

  lemma {:induction false} EndModesKeep(m: Mouse, w: World, order: seq<Key>)
    requires Inv(m, w)
    ensures Inv(m, w.(s := EndModes(w.s, order)))
  {
    if order != [] {
      var init := order[..|order| - 1];
      EndModesKeep(m, w, init);
      EndKeeps(m, w.(s := EndModes(w.s, init)), order[|order| - 1]);
    }
  }

  /** Where a shift is safe: its DPI is known, or on the route it acts on the mouse is not slow nor about to be. */
  ghost predicate SafeShift(m: Mouse, w: World, on: DeviceRoute) {
    m.scaled || w.known || on != w.at || Calm(m, w)
  }

  /** A low write that is still to read the sensor may run on `r`. */
  ghost predicate MaySense(m: Mouse, w: World, r: DeviceRoute) {
    exists i :: 0 <= i < |w.flights| && SensesNow(m, w.(at := r), w.flights[i])
  }

  /** No write on `r` slows a mouse that is neither in the mode nor owed, or about to be neither. */
  ghost predicate NoStaleWrite(m: Mouse, w: World, r: DeviceRoute) {
    m.key in w.s.precision || (m.key in w.s.restore && !Paid(m, w)) || NoneToSlow(m, w, r)
  }

  /** No low write on `r` reads the precision speed. */
  ghost predicate NoStaleReading(m: Mouse, w: World, r: DeviceRoute) {
    m.scaled || !MaySense(m, w, r) || (!w.speed.AtPrecision? && NoneSlowing(m, w, r))
  }

  /** Where a change of route is safe. */
  ghost predicate SafeRoam(m: Mouse, w: World, r: DeviceRoute) { NoStaleWrite(m, w, r) && NoStaleReading(m, w, r) }

  ghost predicate Safe(m: Mouse, w: World, e: Event) {
    (e.HoldShift? ==> SafeShift(m, w, e.on)) && (e.Roam? ==> SafeRoam(m, w, e.to))
  }

  /** Only the readings, the cache and the hold differ, and no reading is the precision speed. */
  lemma CellKeeps(m: Mouse, w: World, w': World)
    requires Inv(m, w) && w'.s == w.s && w'.flights == w.flights && w'.speed == w.speed && w'.at == w.at
    requires w'.cells != [] && forall c :: 0 <= c < |w'.cells| ==> w'.cells[c] != Some(AtPrecision)
    requires forall r :: r in w'.holds ==> m.scaled ==> w'.holds[r].own.None?
    ensures Inv(m, w')
  {
    CellKeepsCalm(m, w, w');
    CellKeepsReadings(m, w, w');
    assert Paid(m, w') == Paid(m, w);
  }

  lemma CellKeepsReadings(m: Mouse, w: World, w': World)
    requires Readings(m, w) && w'.s == w.s && w'.flights == w.flights && w'.speed == w.speed && w'.at == w.at
    requires forall c :: 0 <= c < |w'.cells| ==> w'.cells[c] != Some(AtPrecision)
    ensures Readings(m, w')
  {
    CellKeepsCalm(m, w, w');
    assert forall f: Flight :: SensesNow(m, w', f) == SensesNow(m, w, f);
  }

  lemma CellKeepsCalm(m: Mouse, w: World, w': World)
    requires w'.s == w.s && w'.flights == w.flights && w'.speed == w.speed && w'.at == w.at
    ensures Quiet(m, w') == Quiet(m, w) && Calm(m, w') == Calm(m, w)
    ensures forall f: Flight :: MayRun(w', f) == MayRun(w, f)
  {}

  lemma LaunchLowKeeps(m: Mouse, w: World, on: DeviceRoute, found: Option<Key>)
    requires Inv(m, w) && Enabled(m, w, HoldShift(on, found)) && SafeShift(m, w, on)
    ensures Inv(m, LaunchLow(w, on, found))
  {
    var t := PresetEnd(w.s, found);
    var w1 := w.(s := t);
    PresetEndKeeps(m, w, found);
    assert found.Some? ==> found.value == m.key && !m.scaled;
    SameWritesKeep(m, w, w1);
    LaunchKeeps(m, w1, on, LowRestore(w, found), ShiftLow(NewestCell(w), !w.known));
  }

  lemma HoldKeeps(m: Mouse, w: World, on: DeviceRoute, found: Option<Key>)
    requires Inv(m, w) && Enabled(m, w, HoldShift(on, found)) && SafeShift(m, w, on)
    ensures Inv(m, Step(m, w, HoldShift(on, found)))
  {
    LaunchLowKeeps(m, w, on, found);
    assert found.Some? ==> found.value == m.key && !m.scaled;
    CellKeeps(m, LaunchLow(w, on, found), Step(m, w, HoldShift(on, found)));
  }

  lemma ReleaseKeeps(m: Mouse, w: World, on: DeviceRoute)
    requires Inv(m, w) && m.Owns(on) && on in w.holds
    ensures Inv(m, Step(m, w, ReleaseShift(on)))
  {
    var Hold(c, own) := w.holds[on];
    if ShiftMayRestore(w.s, m.key, own) {
      LaunchKeeps(m, w, on, w.s.Pending(m.key), ShiftBack(c));
      var w' := LaunchPlace(w, w.s.Number(on), PlaceAt(w.s, on, w.s.Pending(m.key)), ShiftBack(c));
      CellKeeps(m, w', Step(m, w, ReleaseShift(on)));
    } else {
      CellKeeps(m, w, Step(m, w, ReleaseShift(on)));
    }
  }

  /** Only the route the mouse is on differs. */
  lemma RoamKeepsReadings(m: Mouse, w: World, r: DeviceRoute)
    requires Readings(m, w) && NoStaleReading(m, w, r)
    ensures Readings(m, w.(at := r))
  {
    var w' := w.(at := r);
    assert NoneSlowing(m, w', r) == NoneSlowing(m, w, r);
  }

  lemma RoamKeepsDebt(m: Mouse, w: World, r: DeviceRoute)
    requires Debt(m, w) && Paid(m, w) ==> NoneToSlow(m, w, r)
    requires Debt(m, w)
    ensures Debt(m, w.(at := r))
  {
    var w' := w.(at := r);
    assert Paid(m, w') == Paid(m, w);
    NoneToSlowThere(m, w, r);
  }

  lemma NoneToSlowThere(m: Mouse, w: World, r: DeviceRoute)
    ensures NoneToSlow(m, w.(at := r), r) == NoneToSlow(m, w, r)
  {
    assert forall f: Flight :: MayRun(w.(at := r), f) == MayRun(w, f);
  }

  lemma RoamKeeps(m: Mouse, w: World, r: DeviceRoute)
    requires Inv(m, w) && m.Owns(r) && SafeRoam(m, w, r)
    ensures Inv(m, w.(at := r))
  {
    RoamKeepsReadings(m, w, r);
    RoamKeepsDebt(m, w, r);
    NoneToSlowThere(m, w, r);
  }

  // --- The life of a write keeps it ----------------------------------------------

  /** `w'` is `w` after write `i` moved to another phase; the speed may change with it. */
  ghost predicate Moves(w: World, w': World, i: nat, phase: Phase)
  {
    && i < |w.flights|
    && w' == w.(flights := w.flights[i := w.flights[i].(phase := phase)], speed := w'.speed)
    && (phase.Running? && !w.flights[i].phase.Running? ==>
          forall j :: 0 <= j < |w.flights| && w.flights[j].place.route == w.flights[i].place.route
                      ==> !w.flights[j].phase.Running?)
  }

  lemma MoveKeepsOrder(m: Mouse, w: World, w': World, i: nat, phase: Phase)
    requires Ordered(w) && Dated(m, w) && Moves(w, w', i, phase)
    ensures Ordered(w') && Dated(m, w')
  {}

  lemma MoveKeepsDebt(m: Mouse, w: World, w': World, i: nat, phase: Phase)
    requires Debt(m, w) && Moves(w, w', i, phase)
    requires Quiet(m, w) ==> Quiet(m, w')
    requires m.key in w.s.restore && Carries(m, w.flights[i], w.s.restore[m.key]) && phase.Landed? ==> Quiet(m, w')
    ensures Debt(m, w')
  {
    assert forall j :: 0 <= j < |w.flights| ==> w'.flights[j].place == w.flights[j].place;
    assert forall j :: 0 <= j < |w.flights| && j != i ==> w'.flights[j] == w.flights[j];
  }

  lemma MoveKeepsReadings(m: Mouse, w: World, w': World, i: nat, phase: Phase)
    requires Readings(m, w) && Moves(w, w', i, phase) && phase != Running(Aimed(AtPrecision))
    requires forall j :: 0 <= j < |w'.flights| && SensesNow(m, w', w'.flights[j]) ==> m.scaled || Calm(m, w')
    ensures Readings(m, w')
  {
    assert forall j :: 0 <= j < |w.flights| && j != i ==> w'.flights[j] == w.flights[j];
    assert w'.flights[i].place == w.flights[i].place && w'.flights[i].job == w.flights[i].job;
  }

  lemma MoveKeeps(m: Mouse, w: World, w': World, i: nat, phase: Phase)
    requires Inv(m, w) && Moves(w, w', i, phase) && phase != Running(Aimed(AtPrecision))
    requires Quiet(m, w) ==> Quiet(m, w')
    requires m.key in w.s.restore && Carries(m, w.flights[i], w.s.restore[m.key]) && phase.Landed? ==> Quiet(m, w')
    requires forall j :: 0 <= j < |w'.flights| && SensesNow(m, w', w'.flights[j]) ==> m.scaled || Calm(m, w')
    ensures Inv(m, w')
  {
    MoveKeepsOrder(m, w, w', i, phase);
    MoveKeepsDebt(m, w, w', i, phase);
    MoveKeepsReadings(m, w, w', i, phase);
  }

  /** The write that takes its turn where the mouse is, is the only one that may run there. */
  lemma TurnKeepsCalm(m: Mouse, w: World, i: nat)
    requires Ordered(w) && Enabled(m, w, TakeTurn(i)) && Calm(m, w)
    requires exists j :: 0 <= j < |w.flights| && SensesNow(m, w, w.flights[j])
    requires forall j :: 0 <= j < |w.flights| && SensesNow(m, w, w.flights[j]) ==> !Slows(m, w.flights[j])
    ensures Calm(m, Step(m, w, TakeTurn(i)))
  {
    var w' := Step(m, w, TakeTurn(i));
    var j :| 0 <= j < |w.flights| && SensesNow(m, w, w.flights[j]);
    if w.flights[i].place.route == w.at && w'.flights[i].phase.Running? {
      assert j == i;
    }
  }

  lemma TurnKeeps(m: Mouse, w: World, i: nat)
    requires Inv(m, w) && Enabled(m, w, TakeTurn(i))
    ensures Inv(m, Step(m, w, TakeTurn(i)))
  {
    var w' := Step(m, w, TakeTurn(i));
    assert forall j :: 0 <= j < |w.flights| && MayRun(w', w'.flights[j]) ==> MayRun(w, w.flights[j]);
    forall j | 0 <= j < |w'.flights| && SensesNow(m, w', w'.flights[j]) ensures m.scaled || Calm(m, w') {
      assert SensesNow(m, w, w.flights[j]);
      if !m.scaled {
        TurnKeepsCalm(m, w, i);
      }
    }
    MoveKeeps(m, w, w', i, w'.flights[i].phase);
  }

  /** A write that goes on without reaching the mouse, or ends, frees no other write. */
  lemma AdvanceKeeps(m: Mouse, w: World, i: nat, phase: Phase)
    requires Inv(m, w) && i < |w.flights|
    requires phase.Done? || (w.flights[i].phase.Running? && phase.Running? && !phase.progress.Began?)
    requires phase != Running(Aimed(AtPrecision))
    ensures Inv(m, SetPhase(w, i, phase))
  {
    var w' := SetPhase(w, i, phase);
    assert forall j :: 0 <= j < |w.flights| && MayRun(w', w'.flights[j]) ==> MayRun(w, w.flights[j]);
    assert forall j :: 0 <= j < |w.flights| && SensesNow(m, w', w'.flights[j]) ==> SensesNow(m, w, w.flights[j]);
    assert Quiet(m, w) ==> Quiet(m, w');
    assert Calm(m, w) ==> Calm(m, w');
    MoveKeeps(m, w, w', i, phase);
  }

  lemma ReadKeeps(m: Mouse, w: World, i: nat)
    requires Inv(m, w) && Enabled(m, w, ReadSensor(i))
    ensures Inv(m, Step(m, w, ReadSensor(i)))
  {
    assert SensesNow(m, w, w.flights[i]);
    AdvanceKeeps(m, w, i, Running(Sensed));
    CellKeeps(m, SetPhase(w, i, Running(Sensed)), Step(m, w, ReadSensor(i)));
  }

  lemma ChooseKeeps(m: Mouse, w: World, i: nat)
    requires Inv(m, w) && Enabled(m, w, Choose(i))
    ensures Inv(m, Step(m, w, Choose(i)))
  {
    AdvanceKeeps(m, w, i, Chosen(w, w.flights[i].job.cell));
  }

  /** A write that does not slow the mouse never brings it to the precision speed. */
  lemma EffectOfOwnWrite(m: Mouse, w: World, i: nat)
    requires Readings(m, w) && m.Owns(w.at) && i < |w.flights| && !Slows(m, w.flights[i])
    ensures !w.speed.AtPrecision? ==> !Effect(m, w, w.flights[i]).AtPrecision?
    ensures w.flights[i].place.route == w.at && OwnKind(m, w.flights[i].job) && w.flights[i].phase.Running?
            && (w.flights[i].job.ShiftBack? ==> w.flights[i].phase.progress.Aimed?)
            ==> !Effect(m, w, w.flights[i]).AtPrecision?
  {}

  /** Write `i` ran to its end: it reached the mouse (`took`) or not, and reports later or never. */
  function Ended(m: Mouse, w: World, i: nat, phase: Phase, took: bool): World
    requires i < |w.flights|
  {
    SetPhase(w, i, phase).(speed := if took then Effect(m, w, w.flights[i]) else w.speed)
  }

  /** What was quiet or calm stays so: the write was none that slows the mouse. */
  lemma EndOfRunKeepsCalm(m: Mouse, w: World, i: nat, phase: Phase, took: bool)
    requires Readings(m, w) && m.Owns(w.at) && i < |w.flights| && w.flights[i].phase.Running? && !phase.Running? && !phase.Waiting?
    ensures Quiet(m, w) ==> Quiet(m, Ended(m, w, i, phase, took))
    ensures Calm(m, w) ==> Calm(m, Ended(m, w, i, phase, took))
  {
    var w' := Ended(m, w, i, phase, took);
    assert forall j :: 0 <= j < |w.flights| && MayRun(w', w'.flights[j]) ==> w'.flights[j] == w.flights[j] && MayRun(w, w.flights[j]);
    if !Slows(m, w.flights[i]) {
      EffectOfOwnWrite(m, w, i);
    }
  }

  lemma EndOfRunKeeps(m: Mouse, w: World, i: nat, phase: Phase, took: bool)
    requires Inv(m, w) && i < |w.flights| && w.flights[i].phase.Running?
    requires phase.Done? || (phase.Landed? && Enabled(m, w, Land(i)) && took)
    ensures Inv(m, Ended(m, w, i, phase, took))
  {
    var f, w' := w.flights[i], Ended(m, w, i, phase, took);
    EndOfRunKeepsCalm(m, w, i, phase, took);
    assert forall j :: 0 <= j < |w.flights| && SensesNow(m, w', w'.flights[j]) ==> SensesNow(m, w, w.flights[j]);
    if m.key in w.s.restore && Carries(m, f, w.s.restore[m.key]) && phase.Landed? {
      EffectOfOwnWrite(m, w, i);
      CarrierQuiets(m, w, w', i);
    }
    MoveKeeps(m, w, w', i, phase);
  }

  /** While a write that carries the debt runs where the mouse is, no slowing write can run there any more. */
  lemma CarrierQuiets(m: Mouse, w: World, w': World, i: nat)
    requires Inv(m, w) && i < |w.flights| && w.flights[i].phase.Running? && Moves(w, w', i, Landed)
    requires w.flights[i].place.route == w.at
    requires m.key in w.s.restore && Carries(m, w.flights[i], w.s.restore[m.key]) && !w'.speed.AtPrecision?
    ensures Quiet(m, w')
  {
    forall j | 0 <= j < |w'.flights| && Slows(m, w'.flights[j]) && w'.flights[j].place.route == w.at
      ensures !MayRun(w', w'.flights[j])
    {
      assert Slows(m, w.flights[j]) && j < i;
    }
  }

  lemma LandKeeps(m: Mouse, w: World, i: nat)
    requires Inv(m, w) && Enabled(m, w, Land(i))
    ensures Inv(m, Step(m, w, Land(i)))
  {
    EndOfRunKeeps(m, w, i, Landed, true);
    CellKeeps(m, Ended(m, w, i, Landed, true), Step(m, w, Land(i)));
  }

  lemma SettleKeeps(m: Mouse, w: World, restore: Restore)
    requires Inv(m, w)
    requires w.s.Pending(m.key) == Some(restore) ==> Quiet(m, w)
    ensures Inv(m, w.(s := Restored(w.s, restore)))
  {
    var w' := w.(s := Restored(w.s, restore));
    SameWritesKeep(m, w, w');
    SameWritesKeepReadings(m, w, w');
    SettleKeepsDebt(m, w, restore);
  }

  lemma SettleKeepsDebt(m: Mouse, w: World, restore: Restore)
    requires Dated(m, w) && Debt(m, w)
    ensures var w' := w.(s := Restored(w.s, restore)); Dated(m, w') && Debt(m, w')
  {
    SameWritesKeep(m, w, w.(s := Restored(w.s, restore)));
  }

  lemma ReportKeeps(m: Mouse, w: World, i: nat)
    requires Inv(m, w) && Enabled(m, w, Report(i))
    ensures Inv(m, Step(m, w, Report(i)))
  {
    var restore := w.flights[i].place.restore;
    if restore.Some? {
      SettleKeeps(m, w, restore.value);
      AdvanceKeeps(m, w.(s := Restored(w.s, restore.value)), i, Done);
    } else {
      AdvanceKeeps(m, w, i, Done);
    }
  }

  lemma PowerCycleKeeps(m: Mouse, w: World)
    requires Inv(m, w)
    ensures Inv(m, w.(speed := Own))
  {
    var w' := w.(speed := Own);
    assert forall f: Flight :: MayRun(w', f) == MayRun(w, f);
    assert Quiet(m, w) ==> Quiet(m, w');
    assert Calm(m, w) ==> Calm(m, w');
  }

  lemma ReloadKeeps(m: Mouse, w: World, e: Event)
    requires Inv(m, w) && Enabled(m, w, e) && e.ConfigReload?
    ensures Inv(m, Step(m, w, e))
  {
    ReloadMiceKeeps(m, w, e.change, e.mice);
    var mid := Launch(w, ReloadMice(w.s, e.change, e.mice));
    EndModesKeep(m, mid, e.order);
    assert mid.(s := EndModes(mid.s, e.order)) == Step(m, w, e);
  }

  /** A step of a numbered write, once it waits for its turn. */
  predicate OfFlight(e: Event) {
    e.TakeTurn? || e.Abandon? || e.ReadSensor? || e.Choose? || e.Land? || e.Fail? || e.Report?
  }

  lemma FlightKeeps(m: Mouse, w: World, e: Event)
    requires Inv(m, w) && Enabled(m, w, e) && Safe(m, w, e) && OfFlight(e)
    ensures Inv(m, Step(m, w, e))
  {
    match e
    case TakeTurn(i) => TurnKeeps(m, w, i);
    case Abandon(i) => AdvanceKeeps(m, w, i, Done);
    case ReadSensor(i) => ReadKeeps(m, w, i);
    case Choose(i) => ChooseKeeps(m, w, i);
    case Land(i) => LandKeeps(m, w, i);
    case Fail(i, took) => EndOfRunKeeps(m, w, i, Done, took);
    case Report(i) => ReportKeeps(m, w, i);
  }

  /** An operation of `PointerSpeeds` on any mouse. */
  predicate OfSpeeds(e: Event) {
    e.Publication? || e.Press? || e.Reconnect? || e.AppWrites? || e.PresetPress? || e.ConfigReload? || e.OtherRelease?
  }

  lemma SpeedsKeep(m: Mouse, w: World, e: Event)
    requires Inv(m, w) && Enabled(m, w, e) && OfSpeeds(e)
    ensures Inv(m, Step(m, w, e))
  {
    match e
    case Publication(_, online) => PublishKeeps(m, w, e.selected, online);
    case Press(who, press) => PressKeeps(m, w, who, press);
    case Reconnect(key, route, saved) => ReconnectKeeps(m, w, key, route, saved);
    case AppWrites(route, saved, order) =>
      AppKeysAreOwn(m, w, route, saved, order);
      AppKeeps(m, w, route, saved, order);
    case PresetPress(route, found, dpi) => PresetKeeps(m, w, route, found, dpi);
    case ConfigReload(change, mice, order) => ReloadKeeps(m, w, e);
    case OtherRelease(key, route, _, dpi) => LaunchKeeps(m, w, route, w.s.Pending(key), Set(DpiTo(Value(dpi))));
  }

  lemma MouseKeeps(m: Mouse, w: World, e: Event)
    requires Inv(m, w) && Enabled(m, w, e) && Safe(m, w, e) && !OfSpeeds(e) && !OfFlight(e)
    ensures Inv(m, Step(m, w, e))
  {
    match e
    case HoldShift(on, found) => HoldKeeps(m, w, on, found);
    case ReleaseShift(on) => ReleaseKeeps(m, w, on);
    case CacheDpi(_) => CellKeeps(m, w, Step(m, w, e));
    case FreshCell => CellKeeps(m, w, Step(m, w, e));
    case PowerCycle => PowerCycleKeeps(m, w);
    case Roam(to) => RoamKeeps(m, w, to);
  }

  lemma StepKeeps(m: Mouse, w: World, e: Event)
    requires Inv(m, w) && Enabled(m, w, e) && Safe(m, w, e)
    ensures Inv(m, Step(m, w, e))
  {
    if OfFlight(e) { FlightKeeps(m, w, e); }
    else if OfSpeeds(e) { SpeedsKeep(m, w, e); }
    else { MouseKeeps(m, w, e); }
  }
}
