/** Exactly when a held DPI shift keeps its mouse accounted for: a reading of the precision speed must not come back. */
module ShiftTheorems {
  import opened Basics
  import opened P = PointerSpeeds
  import opened PrecisionSafety
  import opened PrecisionRuns
  import opened PrecisionTheorems

  /** Slowing writes are plain writes of the kind of the mouse. */
  ghost predicate SlowingIsPlain(m: Mouse, w: World) {
    forall i :: 0 <= i < |w.flights| && Slows(m, w.flights[i])
                ==> w.flights[i].job.Set? && w.flights[i].job.target.ScaledTo? == m.scaled
  }

  /** Low write `i`, still to read, may run where a DPI mouse is slow or about to be. */
  ghost predicate WillReadSlow(m: Mouse, w: World, i: nat) {
    && !m.scaled && m.Owns(w.at) && Ordered(w) && SlowingIsPlain(m, w) && !Calm(m, w)
    && i < |w.flights| && SensesNow(m, w, w.flights[i])
  }

  /** The low write `i` of `w` is next, or runs already, where the mouse is slow. */
  ghost predicate ReadsNext(m: Mouse, w: World, i: nat) {
    && !m.scaled && m.Owns(w.at) && w.speed.AtPrecision? && i < |w.flights| && SensesNow(m, w, w.flights[i])
    && forall j :: 0 <= j < |w.flights| && j != i && w.flights[j].place.route == w.at ==> !w.flights[j].phase.Running?
  }

  /** On a slow mouse, the write that runs before the low write fails. */
  lemma WaitsItsTurn(m: Mouse, w: World, i: nat) returns (w': World)
    requires WillReadSlow(m, w, i) && w.speed.AtPrecision?
    ensures Reaches(m, w, w') && ReadsNext(m, w', i) && w' == w.(flights := w'.flights) && w'.flights[i] == w.flights[i]
  {
    if w.flights[i].phase.Running? {
      w' := w;
      Stay(m, w);
    } else {
      w' := Frees(m, w, w.at);
      assert MayRun(w', w'.flights[i]);
    }
  }

  /** A slowing write that runs before the low write lands. */
  lemma SlowsFirst(m: Mouse, w: World, i: nat) returns (w': World)
    requires WillReadSlow(m, w, i) && !w.speed.AtPrecision?
    ensures Reaches(m, w, w') && ReadsNext(m, w', i)
    ensures w' == w.(flights := w'.flights, speed := w'.speed) && w'.flights[i] == w.flights[i]
  {
    var j :| 0 <= j < |w.flights| && Slows(m, w.flights[j]) && w.flights[j].place.route == w.at
             && w.flights[j].phase.Running?;
    assert j != i;
    w' := SetPhase(w, j, Landed).(speed := AtPrecision);
    Go(m, w, Land(j));
    assert MayRun(w', w'.flights[i]);
  }

  /** The reading is taken and the low write lands. */
  ghost predicate HasRead(w: World, w': World, c: nat) {
    && w'.s == w.s && w'.at == w.at && w'.known == w.known && w'.holds == w.holds && Free(w', w.at)
    && |w'.cells| == |w.cells| && c < |w'.cells| && w'.cells[c] == Some(AtPrecision) && w'.speed.Own?
  }

  /** The low write has its turn where the mouse is slow, and is about to read. */
  lemma ComesToRead(m: Mouse, w: World, i: nat) returns (w': World)
    requires WillReadSlow(m, w, i)
    ensures Reaches(m, w, w') && ReadsNext(m, w', i) && w'.flights[i] == w.flights[i].(phase := Running(Began))
    ensures w' == w.(flights := w'.flights, speed := w'.speed)
  {
    var w1;
    if w.speed.AtPrecision? { w1 := WaitsItsTurn(m, w, i); } else { w1 := SlowsFirst(m, w, i); }
    w' := Begins(m, w1, i);
    Onward(m, w, w1, w');
  }

  lemma Begins(m: Mouse, w: World, i: nat) returns (w': World)
    requires ReadsNext(m, w, i)
    ensures Reaches(m, w, w') && w' == SetPhase(w, i, Running(Began)) && ReadsNext(m, w', i)
  {
    w' := SetPhase(w, i, Running(Began));
    if w.flights[i].phase.Running? {
      assert w' == w;
      Stay(m, w);
    } else {
      Turns(m, w, i);
    }
  }

  lemma ReadsAndLands(m: Mouse, w: World, i: nat) returns (w': World)
    requires ReadsNext(m, w, i) && w.flights[i].phase == Running(Began)
    requires w.flights[i].job.cell < |w.cells| && w.cells[w.flights[i].job.cell].None?
    ensures Reaches(m, w, w') && HasRead(w, w', w.flights[i].job.cell)
  {
    var w1 := Step(m, w, ReadSensor(i));
    Go(m, w, ReadSensor(i));
    w' := Step(m, w1, Land(i));
    GoOn(m, w, w1, Land(i));
  }

  /** Whatever the mode and the debt, they can end. */
  lemma CanSettle(m: Mouse, w: World) returns (w': World)
    requires m.Owns(w.at) && Free(w, w.at)
    ensures Reaches(m, w, w') && Settled(m, w, w') && (w.speed.Own? ==> !w'.speed.AtPrecision?)
  {
    Stay(m, w);
    var saved := if m.scaled then Scaled(None) else Sensor(None);
    if m.key in w.s.precision {
      Hears(m, w, w, w.at, saved);
      PressLaunches(m, w, saved);
      var heard := Heard(m, w, w.at, saved);
      var off := Step(m, heard, Press(Some(m.key), PRESS));
      GoOn(m, w, heard, Press(Some(m.key), PRESS));
      w' := PaysIdle(m, heard, off, saved);
      Onward(m, w, off, w');
    } else if m.key in w.s.restore {
      ReconnectLaunches(m, w, saved);
      var back := Step(m, w, Reconnect(m.key, w.at, saved));
      Go(m, w, Reconnect(m.key, w.at, saved));
      w' := PaysIdle(m, w, back, saved);
      Onward(m, w, back, w');
    } else {
      w' := w;
    }
  }

  lemma PaysIdle(m: Mouse, w: World, launched: World, saved: SavedSpeed) returns (w': World)
    requires Free(w, w.at) && Launched(m, w, launched, saved.Restored())
    ensures Reaches(m, launched, w') && Settled(m, w, w') && (w.speed.Own? ==> !w'.speed.AtPrecision?)
  {
    assert Free(launched, w.at) by {
      assert forall j :: 0 <= j < |w.flights| ==> launched.flights[j] == launched.flights[..|w.flights|][j] == w.flights[j];
    }
    w' := Settles(m, launched, |w.flights|);
  }

  /** With nothing owed, the release of a shift whose cell holds the precision speed puts it back. */
  lemma ReleaseForgets(m: Mouse, w: World) returns (w': World)
    requires !m.scaled && m.Owns(w.at) && Free(w, w.at)
    requires m.key !in w.s.precision && m.key !in w.s.restore
    requires w.at in w.holds && Cell(w, w.holds[w.at].cell) == Some(AtPrecision)
    ensures Reaches(m, w, w') && Forgotten(m, w')
  {
    var n := |w.flights|;
    var w1 := Step(m, w, CacheDpi(false));
    Go(m, w, CacheDpi(false));
    var w2 := Step(m, w1, ReleaseShift(w.at));
    GoOn(m, w, w1, ReleaseShift(w.at));
    assert NextToRun(w2, n);
    var w3 := SetPhase(w2, n, Running(Began));
    Turns(m, w2, n);
    Onward(m, w, w2, w3);
    w' := Aims(m, w3, n);
    Onward(m, w, w3, w');
  }

  /** A shift restore that finds the precision speed in its cell aims at it and lands. */
  lemma Aims(m: Mouse, w: World, n: nat) returns (w': World)
    requires !m.scaled && n < |w.flights| && w.flights[n].phase == Running(Began) && w.flights[n].place.route == w.at
    requires w.flights[n].job.ShiftBack? && !w.known && Cell(w, w.flights[n].job.cell) == Some(AtPrecision)
    ensures Reaches(m, w, w') && w'.s == w.s && w'.speed.AtPrecision?
  {
    var w1 := Step(m, w, Choose(n));
    Go(m, w, Choose(n));
    w' := Step(m, w1, Land(n));
    GoOn(m, w, w1, Land(n));
  }

  /** A low write that reads the precision speed into the empty cell of a shift still held leads to a forgotten mouse. */
  lemma HeldReadingForgets(m: Mouse, w: World, i: nat) returns (w': World)
    requires WillReadSlow(m, w, i) && w.at in w.holds && w.holds[w.at].cell == w.flights[i].job.cell
    requires w.flights[i].job.cell < |w.cells| && w.cells[w.flights[i].job.cell].None?
    ensures Reaches(m, w, w') && Forgotten(m, w')
  {
    var next := ComesToRead(m, w, i);
    var read := ReadsAndLands(m, next, i);
    Onward(m, w, next, read);
    var settled := CanSettle(m, read);
    Onward(m, w, read, settled);
    w' := ReleaseForgets(m, settled);
    Onward(m, w, settled, w');
  }

  // --- The newest cell can always be emptied --------------------------------------------------

  /** The same mouse, at the same speed, with the same writes and more that wait. */
  ghost predicate Extends(w: World, w': World) {
    && w'.at == w.at && w'.speed == w.speed && |w'.cells| == |w.cells| && |w.flights| <= |w'.flights|
    && (forall j :: 0 <= j < |w.flights| ==> w'.flights[j] == w.flights[j])
    && (forall j :: |w.flights| <= j < |w'.flights| ==> w'.flights[j].phase.Waiting?)
  }

  /** The mouse is heard of where it is and put into the mode, if it is not in it. */
  lemma CanEnter(m: Mouse, w: World) returns (w': World)
    requires !m.scaled && m.Owns(w.at)
    ensures Reaches(m, w, w') && Extends(w, w') && m.key in w'.s.precision
    ensures w'.s.online == map[m.key := OnlineMouse(w.at, Sensor(None))]
    ensures w'.holds == w.holds && w'.cells == w.cells
  {
    Stay(m, w);
    Hears(m, w, w, w.at, Sensor(None));
    w' := Heard(m, w, w.at, Sensor(None));
    if m.key !in w.s.precision {
      GoOn(m, w, w', Press(Some(m.key), PRESS));
      w' := Step(m, w', Press(Some(m.key), PRESS));
    }
  }

  /** A shift released in the mode empties its cell and restores nothing. */
  lemma RefusedRelease(m: Mouse, w: World) returns (w': World)
    requires m.Owns(w.at) && m.key in w.s.precision && w.at in w.holds
    ensures Reaches(m, w, w') && Extends(w, w') && w'.s == w.s && w'.holds == w.holds - {w.at}
    ensures w'.cells == SetCell(w, w.holds[w.at].cell, None).cells
  {
    Go(m, w, ReleaseShift(w.at));
    w' := Step(m, w, ReleaseShift(w.at));
  }

  /** A shift held with the DPI known uses the newest cell and reads nothing. */
  lemma CanHold(m: Mouse, w: World) returns (w': World)
    requires !m.scaled && m.Owns(w.at) && w.at !in w.holds && w.cells != []
    requires w.s.online == map[m.key := OnlineMouse(w.at, Sensor(None))]
    ensures Reaches(m, w, w') && Extends(w, w') && w.at in w'.holds && w'.holds[w.at].cell == NewestCell(w)
  {
    var hold := HoldShift(w.at, Some(m.key));
    assert m.key in PresetKeys(w.s, w.at);
    var known := Step(m, w, CacheDpi(true));
    Go(m, w, CacheDpi(true));
    GoOn(m, w, known, hold);
    w' := Step(m, known, hold);
  }

  lemma CanEmpty(m: Mouse, w: World) returns (w': World)
    requires !m.scaled && m.Owns(w.at) && w.cells != []
    ensures Reaches(m, w, w') && Extends(w, w') && w'.cells[NewestCell(w')].None? && w.at !in w'.holds
  {
    var w1 := CanEnter(m, w);
    var w2 := w1;
    if w.at in w1.holds {
      w2 := RefusedRelease(m, w1);
      Onward(m, w, w1, w2);
    }
    var w3 := CanHold(m, w2);
    Onward(m, w, w2, w3);
    var w4 := CanEnter(m, w3);
    Onward(m, w, w3, w4);
    w' := RefusedRelease(m, w4);
    Onward(m, w, w4, w');
  }

  lemma StillReads(m: Mouse, w: World, w': World, i: nat)
    requires ReadsNext(m, w, i) && w.flights[i].phase == Running(Began) && Extends(w, w')
    ensures ReadsNext(m, w', i) && w'.flights[i] == w.flights[i]
  {}

  /** A calm mouse with nothing owed may be shifted with its DPI unknown; what the newest cell holds stays. */
  lemma CanShift(m: Mouse, w: World) returns (w': World)
    requires !m.scaled && m.Owns(w.at) && Calm(m, w) && w.at !in w.holds && !w.known
    requires w.s.online == map[m.key := OnlineMouse(w.at, Sensor(None))]
    requires m.key !in w.s.precision && m.key !in w.s.restore
    ensures Reaches(m, w, w') && Extends(w, w') && w'.cells == w.cells
    ensures w.at in w'.holds && w'.holds[w.at].cell == NewestCell(w)
    ensures m.key !in w'.s.precision && m.key !in w'.s.restore
  {
    var hold := HoldShift(w.at, Some(m.key));
    assert m.key in PresetKeys(w.s, w.at);
    Go(m, w, hold);
    w' := Step(m, w, hold);
  }

  /** A reading of the precision speed in the newest cell is what the next shift returns to. */
  lemma NextShiftForgets(m: Mouse, w: World) returns (w': World)
    requires !m.scaled && m.Owns(w.at) && Free(w, w.at) && !w.speed.AtPrecision? && w.at !in w.holds
    requires m.key !in w.s.precision && m.key !in w.s.restore && Cell(w, NewestCell(w)) == Some(AtPrecision)
    ensures Reaches(m, w, w') && Forgotten(m, w')
  {
    Stay(m, w);
    Hears(m, w, w, w.at, Sensor(None));
    var heard := Heard(m, w, w.at, Sensor(None));
    var unknown := heard.(known := false);
    GoOn(m, w, heard, CacheDpi(false));
    var held := CanShift(m, unknown);
    Onward(m, w, unknown, held);
    w' := ReleaseForgets(m, held);
    Onward(m, w, held, w');
  }

  /** A low write that may read the precision speed into the newest cell, whatever the cell holds now, leads there too. */
  lemma NewestReadingForgets(m: Mouse, w: World, i: nat) returns (w': World)
    requires WillReadSlow(m, w, i) && w.cells != [] && w.flights[i].job.cell == NewestCell(w)
    ensures Reaches(m, w, w') && Forgotten(m, w')
  {
    var next := ComesToRead(m, w, i);
    var empty := CanEmpty(m, next);
    Onward(m, w, next, empty);
    StillReads(m, next, empty, i);
    var read := ReadsAndLands(m, empty, i);
    Onward(m, w, empty, read);
    var settled := CanSettle(m, read);
    Onward(m, w, read, settled);
    w' := NextShiftForgets(m, settled);
    Onward(m, w, settled, w');
  }

  /** A shift started where the mouse is slow or about to be, with its DPI unknown, may forget it. */
  lemma ShiftForgets(m: Mouse, w: World, found: Option<Key>) returns (w': World)
    requires Ordered(w) && SlowingIsPlain(m, w) && Enabled(m, w, HoldShift(w.at, found))
    requires w.cells != [] && !SafeShift(m, w, w.at)
    ensures Reaches(m, Step(m, w, HoldShift(w.at, found)), w') && Forgotten(m, w')
  {
    var n := |w.flights|;
    var held := Step(m, w, HoldShift(w.at, found));
    HoldKeepsOrder(m, w, found);
    assert held.flights[n].job == ShiftLow(NewestCell(w), true);
    HoldKeepsSlow(m, w, found);
    w' := NewestReadingForgets(m, held, n);
  }

  lemma HoldKeepsSlow(m: Mouse, w: World, found: Option<Key>)
    requires Enabled(m, w, HoldShift(w.at, found)) && !Calm(m, w)
    ensures !Calm(m, Step(m, w, HoldShift(w.at, found)))
  {
    var held := Step(m, w, HoldShift(w.at, found));
    if !w.speed.AtPrecision? {
      var j :| 0 <= j < |w.flights| && Slows(m, w.flights[j]) && w.flights[j].place.route == w.at
               && w.flights[j].phase.Running?;
      assert held.flights[j] == w.flights[j];
    }
  }

  lemma HoldKeepsOrder(m: Mouse, w: World, found: Option<Key>)
    requires Ordered(w) && SlowingIsPlain(m, w) && Enabled(m, w, HoldShift(w.at, found))
    ensures var held := Step(m, w, HoldShift(w.at, found));
            Ordered(held) && SlowingIsPlain(m, held)
  {
    var w1 := w.(s := PresetEnd(w.s, found));
    var low := LaunchLow(w, w.at, found);
    var f := low.flights[|w.flights|];
    SameWritesKeep(m, w, w1);
    AppendKeepsOrder(m, w1, low, f);
    EndingKeepsOrder(low, Step(m, w, HoldShift(w.at, found)));
    assert low.flights == w.flights + [f] && !Slows(m, f);
    assert SlowingIsPlain(m, low);
  }

  /** In every state, a shift is safe exactly when its DPI is known or the mouse it acts on is calm. */
  lemma SafeShiftIsExact(m: Mouse, w: World, on: DeviceRoute, found: Option<Key>)
    requires Inv(m, w) && Enabled(m, w, HoldShift(on, found))
    ensures SafeShift(m, w, on) <==> NeverForgets(m, Step(m, w, HoldShift(on, found)))
  {
    if SafeShift(m, w, on) {
      HoldKeeps(m, w, on, found);
      InvNeverForgets(m, Step(m, w, HoldShift(on, found)));
    } else {
      var w' := ShiftForgets(m, w, found);
    }
  }

  /**
    A shift held in the mode and released before its low write lands numbers a restore of its reading that carries
    the debt of the mode it ended.
  */
  lemma ReleasedEarlyCarriesTheDebt(m: Mouse, w: World)
    requires Inv(m, w) && !m.scaled && m.key in w.s.precision && w.at !in w.holds
    requires m.key in w.s.online && w.s.online[m.key].route == w.at
    ensures var hold, release := HoldShift(w.at, Some(m.key)), ReleaseShift(w.at);
            && Enabled(m, w, hold) && Enabled(m, Step(m, w, hold), release)
            && var held := Step(m, w, hold);
               var w' := Step(m, held, release);
               && |w'.flights| == |w.flights| + 2 && w.at !in w'.holds
               && m.key !in w'.s.precision && m.key in w'.s.restore && w'.s.restore[m.key] == w.s.generation + 1
               && var low, back := w'.flights[|w.flights|], w'.flights[|w.flights| + 1];
                  && low.job == ShiftLow(NewestCell(w), !w.known) && back.job == ShiftBack(NewestCell(w))
                  && low.place.restore == back.place.restore == w'.s.Pending(m.key)
                  && back.place.led == Some(false) && back.place.route == w.at
                  && back.place.ticket == w'.s.Newest(w.at) == w.s.Newest(w.at) + 2
  {
    assert m.key in PresetKeys(w.s, w.at);
  }

  /** A shift started with the DPI known returns to it even if the DPI is forgotten during the hold. */
  lemma KnownShiftKeepsItsFallback(m: Mouse, w: World, on: DeviceRoute, found: Option<Key>)
    requires Inv(m, w) && w.known && Enabled(m, w, HoldShift(on, found))
    ensures var forgot := Step(m, Step(m, w, HoldShift(on, found)), CacheDpi(false));
            on in forgot.holds && Chosen(forgot, forgot.holds[on].cell) == Running(Aimed(Own))
  {}

  /** Such a shift is reached: the property fails without the condition on shifts. */
  lemma ForgottenIsReached(m: Mouse) returns (es: seq<Event>)
    requires !m.scaled
    ensures Possible(m, Start(m), es) && Forgotten(m, Follow(m, Start(m), es))
  {
    var w := Slowed(m, Sensor(None));
    BecomesSlow(m, Sensor(None));
    ReachedKeeps(m, Start(m), w);
    assert m.key in PresetKeys(w.s, m.route);
    var w' := ShiftForgets(m, w, Some(m.key));
    es := RunThrough(m, w, HoldShift(m.route, Some(m.key)), w');
  }
}
