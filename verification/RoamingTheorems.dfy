/**
  Exactly when a change of route keeps the mouse accounted for: writes numbered on a route stay there when the
  mouse leaves, and run when it comes back.
*/
module RoamingTheorems {
  import opened Basics
  import opened P = PointerSpeeds
  import opened PrecisionSafety
  import opened PrecisionRuns
  import opened PrecisionTheorems
  import opened ShiftTheorems

  /** The mode is off and nothing is owed, at the latest once the landed write reports. */
  lemma ReportsItsPay(m: Mouse, w: World) returns (w': World)
    requires m.key !in w.s.precision && (m.key in w.s.restore ==> Paid(m, w))
    ensures Reaches(m, w, w') && m.key !in w'.s.precision && m.key !in w'.s.restore
    ensures w' == w.(s := w'.s, flights := w'.flights) && w'.s.issued == w.s.issued && |w'.flights| == |w.flights|
    ensures forall j :: 0 <= j < |w.flights| && !w.flights[j].phase.Landed? ==> w'.flights[j] == w.flights[j]
    ensures Ordered(w) ==> Ordered(w')
  {
    if m.key in w.s.restore {
      var i :| 0 <= i < |w.flights| && Carries(m, w.flights[i], w.s.restore[m.key]) && w.flights[i].phase.Landed?;
      w' := Step(m, w, Report(i));
      Go(m, w, Report(i));
      if Ordered(w) { EndingKeepsOrder(w, w'); }
    } else {
      w' := w;
      Stay(m, w);
    }
  }

  /** A write left behind on the route the mouse comes to slows it, with nobody owing it a restore. */
  lemma StaleWriteForgets(m: Mouse, w: World, r: DeviceRoute) returns (w': World)
    requires Ordered(w) && m.Owns(r) && !NoStaleWrite(m, w, r)
    ensures Reaches(m, w.(at := r), w') && Forgotten(m, w')
  {
    var there := w.(at := r);
    var j :| 0 <= j < |w.flights| && Slows(m, w.flights[j]) && w.flights[j].place.route == r && MayRun(w, w.flights[j]);
    EndingKeepsOrder(w, there);
    var w1 := ReportsItsPay(m, there);
    w' := SlowsAgain(m, w1, j);
    Onward(m, there, w1, w');
  }

  lemma SlowsAgain(m: Mouse, w: World, j: nat) returns (w': World)
    requires m.key !in w.s.precision && m.key !in w.s.restore && Ordered(w)
    requires j < |w.flights| && Slows(m, w.flights[j]) && w.flights[j].place.route == w.at && MayRun(w, w.flights[j])
    ensures Reaches(m, w, w') && Forgotten(m, w')
  {
    if w.flights[j].phase.Running? {
      w' := w;
      Stay(m, w);
    } else {
      var w1 := Frees(m, w, w.at);
      w' := SetPhase(w1, j, Running(Began));
      Turns(m, w1, j);
      Onward(m, w, w1, w');
    }
    assert Slows(m, w'.flights[j]) && w'.flights[j].phase.Running?;
  }

  /** Low write `f` on `r` reads into the newest cell, or into the empty cell of the shift held there. */
  ghost predicate ReadsLiveCell(w: World, r: DeviceRoute, f: Flight)
    requires f.job.ShiftLow?
  {
    || (w.cells != [] && f.job.cell == NewestCell(w))
    || (r in w.holds && w.holds[r].cell == f.job.cell && f.job.cell < |w.cells| && w.cells[f.job.cell].None?)
  }

  ghost predicate ReadLiveCells(m: Mouse, w: World, r: DeviceRoute) {
    forall i :: 0 <= i < |w.flights| && SensesNow(m, w.(at := r), w.flights[i]) ==> ReadsLiveCell(w, r, w.flights[i])
  }

  /** A low write left behind on the route a slow mouse comes to reads the precision speed. */
  lemma StaleReadingForgets(m: Mouse, w: World, r: DeviceRoute) returns (w': World)
    requires Inv(m, w) && m.Owns(r) && ReadLiveCells(m, w, r) && !NoStaleReading(m, w, r)
    ensures Reaches(m, w.(at := r), w') && Forgotten(m, w')
  {
    var there := w.(at := r);
    var i :| 0 <= i < |w.flights| && SensesNow(m, there, w.flights[i]);
    assert NoneSlowing(m, there, r) == NoneSlowing(m, w, r);
    EndingKeepsOrder(w, there);
    assert SlowingIsPlain(m, there) && WillReadSlow(m, there, i);
    if w.flights[i].job.cell == NewestCell(w) {
      w' := NewestReadingForgets(m, there, i);
    } else {
      w' := HeldReadingForgets(m, there, i);
    }
  }

  /** A change of route is safe exactly when no write left behind on the new route slows the mouse or reads it slow. */
  lemma SafeRoamIsExact(m: Mouse, w: World, r: DeviceRoute)
    requires Inv(m, w) && Enabled(m, w, Roam(r)) && ReadLiveCells(m, w, r)
    ensures SafeRoam(m, w, r) <==> NeverForgets(m, Step(m, w, Roam(r)))
  {
    if SafeRoam(m, w, r) {
      RoamKeeps(m, w, r);
      InvNeverForgets(m, w.(at := r));
    } else if !NoStaleWrite(m, w, r) {
      var w' := StaleWriteForgets(m, w, r);
    } else {
      var w' := StaleReadingForgets(m, w, r);
    }
  }

  /**
    With no low write left to read on the new route: safe exactly in the mode, or owed with no landed write still
    to report, or when no slowing write runs there or waits there as the newest.
  */
  lemma StaleWriteIsExact(m: Mouse, w: World, r: DeviceRoute)
    requires Inv(m, w) && Enabled(m, w, Roam(r)) && !MaySense(m, w, r)
    ensures NeverForgets(m, Step(m, w, Roam(r))) <==>
            || m.key in w.s.precision
            || (m.key in w.s.restore && !Paid(m, w))
            || forall j :: 0 <= j < |w.flights| && w.flights[j].place.route == r && w.flights[j].place.led == Some(true)
                           ==> !MayRun(w, w.flights[j])
  {
    SafeRoamIsExact(m, w, r);
    assert forall j :: 0 <= j < |w.flights| && w.flights[j].place.route == r ==>
             (Slows(m, w.flights[j]) <==> w.flights[j].place.led == Some(true));
  }

  /**
    The precision write waits on the first route, the mode ends on route `b` and is settled there, and the mouse
    returns. The old write then runs.
  */
  lemma RoamingIsReached(m: Mouse, b: DeviceRoute) returns (es: seq<Event>)
    requires b in m.others && b != m.route
    ensures Possible(m, Start(m), es) && Forgotten(m, Follow(m, Start(m), es))
  {
    var w := SettledElsewhere(m, b);
    ReachedKeeps(m, Start(m), w);
    assert MayRun(w, w.flights[0]) && Slows(m, w.flights[0]);
    var w' := StaleWriteForgets(m, w, m.route);
    es := RunThrough(m, w, Roam(m.route), w');
  }

  /** In the mode on `b`, heard of there, with the precision write still waiting on the first route. */
  function Away(m: Mouse, b: DeviceRoute, saved: SavedSpeed): World {
    Heard(m, Entered(m, saved).(at := b), b, saved)
  }

  lemma GoesAway(m: Mouse, b: DeviceRoute, saved: SavedSpeed)
    requires b in m.others && b != m.route && saved.Scaled? == m.scaled
    ensures Reaches(m, Start(m), Away(m, b, saved))
  {
    var entered := Entered(m, saved);
    Enters(m, saved);
    GoOn(m, Start(m), entered, Roam(b));
    Hears(m, Start(m), entered.(at := b), b, saved);
  }

  lemma SettledElsewhere(m: Mouse, b: DeviceRoute) returns (w: World)
    requires b in m.others && b != m.route
    ensures Reaches(m, Start(m), w) && m.key !in w.s.precision && m.key !in w.s.restore
    ensures w.flights != [] && w.flights[0].place == SpeedPlace(m.route, 1, None, Some(true))
    ensures w.flights[0].phase.Waiting? && w.s.Newest(m.route) == 1
  {
    var saved := if m.scaled then Scaled(None) else Sensor(None);
    var away := Away(m, b, saved);
    GoesAway(m, b, saved);
    PressLaunches(m, Entered(m, saved).(at := b), saved);
    var off := Step(m, away, Press(Some(m.key), PRESS));
    GoOn(m, Start(m), away, Press(Some(m.key), PRESS));
    assert off.flights[0] == off.flights[..1][0] == away.flights[0];
    w := Settles(m, off, 1);
    Onward(m, Start(m), off, w);
  }

  // --- A reading left behind ---------------------------------------------------------------------

  /** A shift is held on the first route, its low write waits there, and the mouse has gone to `b`. */
  function HeldBehind(m: Mouse, b: DeviceRoute): World {
    World(State(None, map[], {}, map[], 0, map[m.route := 1]),
          [Flight(SpeedPlace(m.route, 1, None, None), ShiftLow(0, true), Waiting)],
          Own, b, false, [None], map[m.route := Hold(0, None)])
  }

  lemma LeavesAHold(m: Mouse, b: DeviceRoute)
    requires !m.scaled && b in m.others && b != m.route
    ensures Reaches(m, Start(m), HeldBehind(m, b))
  {
    var hold := HoldShift(m.route, None);
    assert PresetKeys(Start(m).s, m.route) == {};
    Go(m, Start(m), hold);
    var held := Step(m, Start(m), hold);
    GoOn(m, Start(m), held, Roam(b));
    assert held.(at := b) == HeldBehind(m, b);
  }

  /** On `b` the mouse then enters the mode and becomes slow. */
  lemma SlowOnTheWay(m: Mouse, b: DeviceRoute) returns (w: World)
    requires !m.scaled && b in m.others && b != m.route
    ensures Reaches(m, Start(m), w) && m.key in w.s.precision && w.speed.AtPrecision? && w.at == b
    ensures |w.flights| == 2 && w.flights[0] == HeldBehind(m, b).flights[0] && w.flights[1].place.route == b
    ensures w.cells == [None] && w.holds == map[m.route := Hold(0, None)] && w.s.Newest(m.route) == 1
  {
    LeavesAHold(m, b);
    Hears(m, Start(m), HeldBehind(m, b), b, Sensor(None));
    var heard := Heard(m, HeldBehind(m, b), b, Sensor(None));
    var on := Step(m, heard, Press(Some(m.key), PRESS));
    GoOn(m, Start(m), heard, Press(Some(m.key), PRESS));
    var slowing := Flight(SpeedPlace(b, 1, None, Some(true)), Set(DpiTo(Lowest)), Waiting);
    assert on.flights == heard.flights + [slowing];
    Lands(m, on, 1);
    w := SetPhase(on, 1, Landed).(speed := AtPrecision);
    Onward(m, Start(m), on, w);
  }

  /** The mouse comes back in the mode, where no write slows it unowed; the low write left behind reads it slow. */
  lemma StaleReadingIsReached(m: Mouse, b: DeviceRoute) returns (w: World, es: seq<Event>)
    requires !m.scaled && b in m.others && b != m.route
    ensures Reaches(m, Start(m), w) && m.key in w.s.precision && NoStaleWrite(m, w, m.route)
    ensures !NeverForgets(m, Step(m, w, Roam(m.route)))
    ensures Possible(m, Start(m), es) && Forgotten(m, Follow(m, Start(m), es))
  {
    w := SlowOnTheWay(m, b);
    ReachedKeeps(m, Start(m), w);
    assert SensesNow(m, w.(at := m.route), w.flights[0]);
    var w' := StaleReadingForgets(m, w, m.route);
    es := RunThrough(m, w, Roam(m.route), w');
  }
}
