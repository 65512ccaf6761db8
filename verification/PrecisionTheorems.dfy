/** The theorems about whole runs of `PrecisionSafety`, and exactly where the code falls short of them. */
module PrecisionTheorems {
  import opened Basics
  import opened P = PointerSpeeds
  import opened PrecisionSafety
  import opened PrecisionRuns

  /** No mouse is left slow and forgotten, in any interleaving. */
  lemma NeverForgotten(m: Mouse, es: seq<Event>)
    requires Possible(m, Start(m), es) && SafeRun(m, Start(m), es)
    ensures !Forgotten(m, Follow(m, Start(m), es))
  {
    InvAlongRun(m, Start(m), es);
    KeptIsNotForgotten(m, Follow(m, Start(m), es));
  }

  // --- A condition the agent can check ----------------------------------------------

  /** The mouse keeps its route, and a shift that must read the sensor starts outside the mode with nothing owed. */
  predicate Checked(m: Mouse, w: World, e: Event) {
    && !e.Roam?
    && (e.HoldShift? ==> m.scaled || w.known || (m.key !in w.s.precision && m.key !in w.s.restore))
  }

  ghost predicate CheckedRun(m: Mouse, w: World, es: seq<Event>)
    requires Possible(m, w, es)
    decreases |es|
  {
    es == [] || (Checked(m, w, es[0]) && CheckedRun(m, Step(m, w, es[0]), es[1..]))
  }

  lemma {:induction false} CheckedIsSafe(m: Mouse, w: World, es: seq<Event>)
    requires Inv(m, w) && Possible(m, w, es) && CheckedRun(m, w, es)
    ensures SafeRun(m, w, es)
    decreases |es|
  {
    if es != [] {
      if m.key !in w.s.precision && m.key !in w.s.restore {
        QuietIsCalm(m, w);
      }
      StepKeeps(m, w, es[0]);
      CheckedIsSafe(m, Step(m, w, es[0]), es[1..]);
    }
  }

  /** What the agent knows suffices for a mouse that keeps its route. */
  lemma NeverForgottenIfChecked(m: Mouse, es: seq<Event>)
    requires Possible(m, Start(m), es) && CheckedRun(m, Start(m), es)
    ensures !Forgotten(m, Follow(m, Start(m), es))
  {
    CheckedIsSafe(m, Start(m), es);
    NeverForgotten(m, es);
  }

  // --- A debt can always be paid ----------------------------------------------------------

  /** `w'` is `w` with one more plain write, next to run once the route is free, that carries the debt. */
  ghost predicate Launched(m: Mouse, w: World, w': World, target: SpeedTarget) {
    && |w'.flights| == |w.flights| + 1 && w'.flights[..|w.flights|] == w.flights
    && w' == w.(s := w'.s, flights := w'.flights)
    && m.key !in w'.s.precision && m.key in w'.s.restore
    && var f := w'.flights[|w.flights|];
       && f.job == Set(target) && f.phase.Waiting? && f.place.route == w.at && f.place.ticket == w'.s.Newest(w.at)
       && f.place.restore == w'.s.Pending(m.key) && f.place.led == Some(false)
  }

  lemma ReconnectLaunches(m: Mouse, w: World, saved: SavedSpeed)
    requires m.Owns(w.at) && m.key in w.s.restore && m.key !in w.s.precision && saved.Scaled? == m.scaled
    ensures var back := Reconnect(m.key, w.at, saved);
            Enabled(m, w, back) && Launched(m, w, Step(m, w, back), saved.Restored())
  {
    var o := Reapply(w.s, m.key, w.at, saved);
    assert Fly(o.writes) == [Flight(o.writes[0].place, Set(o.writes[0].target), Waiting)];
  }

  /** The events by which the write that runs where the mouse is ends: it lands or fails; none when nothing runs. */
  ghost predicate Ends(m: Mouse, w: World, ending: seq<Event>) {
    || (ending == [] && Free(w, w.at))
    || (|ending| == 1 && (ending[0].Land? || ending[0].Fail?) && Enabled(m, w, ending[0])
        && w.flights[ending[0].i].place.route == w.at)
  }

  lemma EndFrees(m: Mouse, w: World, w': World, target: SpeedTarget, ending: seq<Event>)
    requires Ordered(w) && Launched(m, w, w', target) && Ends(m, w', ending)
    ensures Possible(m, w', ending) && SafeRun(m, w', ending)
    ensures var w2 := Follow(m, w', ending);
            && NextToRun(w2, |w.flights|) && w2.flights[|w.flights|] == w'.flights[|w.flights|] && w2.s == w'.s
            && w2.at == w.at
  {
    var n := |w.flights|;
    assert forall j :: 0 <= j < n ==> w'.flights[j] == w'.flights[..n][j] == w.flights[j];
    if ending != [] {
      Single(m, w', ending[0]);
      assert ending == [ending[0]];
      OneRuns(w', ending[0].i);
    }
  }

  /**
    Whatever happened before, and however the write that runs at that moment ends, a reconnect whose write then
    lands and reports ends the debt with the mouse at its own speed, short of a sensor without a default DPI.
  */
  lemma ReconnectPaysTheDebt(m: Mouse, w: World, saved: SavedSpeed, ending: seq<Event>) returns (w': World)
    requires Inv(m, w) && m.key in w.s.restore && saved.Scaled? == m.scaled
    requires Enabled(m, w, Reconnect(m.key, w.at, saved)) && Ends(m, Step(m, w, Reconnect(m.key, w.at, saved)), ending)
    ensures var w1 := Step(m, w, Reconnect(m.key, w.at, saved));
            && Reaches(m, w, w1) && Possible(m, w1, ending) && Reaches(m, Follow(m, w1, ending), w')
    ensures m.key !in w'.s.precision && m.key !in w'.s.restore
    ensures w'.speed.Own? || (saved == Sensor(None) && !m.hasDefault && !w'.speed.AtPrecision?)
  {
    ReconnectLaunches(m, w, saved);
    var w1 := Step(m, w, Reconnect(m.key, w.at, saved));
    Go(m, w, Reconnect(m.key, w.at, saved));
    EndFrees(m, w, w1, saved.Restored(), ending);
    w' := Settles(m, Follow(m, w1, ending), |w.flights|);
  }

  // --- The sensor without a default DPI ----------------------------------------------

  ghost predicate NotLeft(w: World) {
    && !w.speed.LeftSlow?
    && (forall c :: 0 <= c < |w.cells| ==> w.cells[c] != Some(LeftSlow))
    && (forall i :: 0 <= i < |w.flights| ==> w.flights[i].phase != Running(Aimed(LeftSlow)))
  }

  lemma NotLeftPhase(w: World, i: nat, phase: Phase, speed: Speed)
    requires NotLeft(w) && i < |w.flights| && phase != Running(Aimed(LeftSlow)) && !speed.LeftSlow?
    ensures NotLeft(SetPhase(w, i, phase).(speed := speed))
  {}

  lemma NotLeftFlight(m: Mouse, w: World, e: Event)
    requires (m.scaled || m.hasDefault) && NotLeft(w) && Enabled(m, w, e) && OfFlight(e)
    ensures NotLeft(Step(m, w, e))
  {
    match e
    case TakeTurn(i) => NotLeftPhase(w, i, Step(m, w, e).flights[i].phase, w.speed);
    case Abandon(i) => NotLeftPhase(w, i, Done, w.speed);
    case ReadSensor(i) => NotLeftPhase(w, i, Running(Sensed), w.speed);
    case Choose(i) => NotLeftPhase(w, i, Chosen(w, w.flights[i].job.cell), w.speed);
    case Land(i) => NotLeftPhase(w, i, Landed, Effect(m, w, w.flights[i]));
    case Fail(i, took) => NotLeftPhase(w, i, Done, if took then Effect(m, w, w.flights[i]) else w.speed);
    case Report(i) => NotLeftPhase(w, i, Done, w.speed);
  }

  /** Every other event leaves the numbered writes as they are and may add waiting ones. */
  lemma OnlyAdds(m: Mouse, w: World, e: Event)
    requires Enabled(m, w, e) && !OfFlight(e)
    ensures var w' := Step(m, w, e);
            && |w.flights| <= |w'.flights|
            && (forall i :: 0 <= i < |w.flights| ==> w'.flights[i] == w.flights[i])
            && (forall i :: |w.flights| <= i < |w'.flights| ==> w'.flights[i].phase.Waiting?)
  {}

  lemma NotLeftStep(m: Mouse, w: World, e: Event)
    requires (m.scaled || m.hasDefault) && NotLeft(w) && Enabled(m, w, e)
    ensures NotLeft(Step(m, w, e))
  {
    if OfFlight(e) {
      NotLeftFlight(m, w, e);
    } else {
      OnlyAdds(m, w, e);
    }
  }

  lemma {:induction false} NeverLeft(m: Mouse, w: World, es: seq<Event>)
    requires m.scaled || m.hasDefault
    requires NotLeft(w) && Possible(m, w, es)
    ensures NotLeft(Follow(m, w, es))
    decreases |es|
  {
    if es != [] {
      NotLeftStep(m, w, es[0]);
      NeverLeft(m, Step(m, w, es[0]), es[1..]);
    }
  }

  /** The mouse moves at its own speed unless its mode is on or a restore is owed. */
  ghost predicate Accounted(m: Mouse, w: World) {
    w.speed.Own? || m.key in w.s.precision || m.key in w.s.restore
  }

  ghost predicate AlwaysAccounted(m: Mouse) {
    forall w :: Reaches(m, Start(m), w) ==> Accounted(m, w)
  }

  /** The agent hears that the watched mouse is online on `r` with `saved`, and nothing else is. */
  function Heard(m: Mouse, w: World, r: DeviceRoute, saved: SavedSpeed): World {
    w.(s := Publish(w.s, None, map[m.key := OnlineMouse(r, saved)]))
  }

  lemma Hears(m: Mouse, a: World, w: World, r: DeviceRoute, saved: SavedSpeed)
    requires Reaches(m, a, w) && m.Owns(r) && saved.Scaled? == m.scaled
    ensures Reaches(m, a, Heard(m, w, r, saved))
  {
    GoOn(m, a, w, Publication(None, map[m.key := OnlineMouse(r, saved)]));
  }

  const PRESS: PrecisionPress := Assigned

  /** The press that ends the mode launches a write that carries the new debt. */
  lemma PressLaunches(m: Mouse, w: World, saved: SavedSpeed)
    requires m.key in w.s.precision
    ensures var heard := Heard(m, w, w.at, saved);
            Launched(m, heard, Step(m, heard, Press(Some(m.key), PRESS)), saved.Restored())
  {
    var o := TogglePrecision(Heard(m, w, w.at, saved).s, Some(m.key), PRESS);
    assert Fly(o.writes) == [Flight(o.writes[0].place, Set(o.writes[0].target), Waiting)];
  }

  /** In the mode: the first press of the mouse, heard of on `m.route`, and its waiting write. */
  function Entered(m: Mouse, saved: SavedSpeed): World {
    var place := SpeedPlace(m.route, 1, None, Some(true));
    World(State(None, map[m.key := OnlineMouse(m.route, saved)], {m.key}, map[], 0, map[m.route := 1]),
          [Flight(place, Set(saved.Precision()), Waiting)], Own, m.route, false, [None], map[])
  }

  lemma Enters(m: Mouse, saved: SavedSpeed)
    requires saved.Scaled? == m.scaled
    ensures Reaches(m, Start(m), Entered(m, saved))
  {
    Stay(m, Start(m));
    Hears(m, Start(m), Start(m), m.route, saved);
    var w1 := Heard(m, Start(m), m.route, saved);
    GoOn(m, Start(m), w1, Press(Some(m.key), PRESS));
    var w2 := Step(m, w1, Press(Some(m.key), PRESS));
    assert w2.s.restore == map[] && w2.s.precision == {m.key};
    assert w2 == Entered(m, saved);
  }

  /** Its write landed: the mouse is slow. */
  function Slowed(m: Mouse, saved: SavedSpeed): World {
    SetPhase(Entered(m, saved), 0, Landed).(speed := AtPrecision)
  }

  lemma BecomesSlow(m: Mouse, saved: SavedSpeed)
    requires saved.Scaled? == m.scaled
    ensures Reaches(m, Start(m), Slowed(m, saved))
  {
    Enters(m, saved);
    Lands(m, Entered(m, saved), 0);
    Onward(m, Start(m), Entered(m, saved), Slowed(m, saved));
  }

  /** A press ends the mode, the sensor reports no default DPI, and the landing report settles the debt. */
  lemma NoDefaultStaysSlow(m: Mouse) returns (w: World)
    requires !m.scaled && !m.hasDefault
    ensures Reaches(m, Start(m), w) && !Accounted(m, w)
  {
    var slowed := Slowed(m, Sensor(None));
    BecomesSlow(m, Sensor(None));
    Hears(m, Start(m), slowed, m.route, Sensor(None));
    var heard := Heard(m, slowed, m.route, Sensor(None));
    PressLaunches(m, slowed, Sensor(None));
    var off := Step(m, heard, Press(Some(m.key), PRESS));
    GoOn(m, Start(m), heard, Press(Some(m.key), PRESS));
    w := Settles(m, off, 1);
    Onward(m, Start(m), off, w);
  }

  /** A slow mouse is always accounted for exactly when it is scaled or its sensor has a default DPI. */
  lemma AccountedExactly(m: Mouse)
    ensures AlwaysAccounted(m) <==> m.scaled || m.hasDefault
  {
    if m.scaled || m.hasDefault {
      forall w | Reaches(m, Start(m), w) ensures Accounted(m, w) {
        var es: seq<Event> :| Possible(m, Start(m), es) && SafeRun(m, Start(m), es) && Follow(m, Start(m), es) == w;
        NeverForgotten(m, es);
        NeverLeft(m, Start(m), es);
      }
    } else {
      var w := NoDefaultStaysSlow(m);
    }
  }
}
