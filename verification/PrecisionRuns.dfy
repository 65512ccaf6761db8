/** Runs of `PrecisionSafety`: sequences of events, what they reach by safe steps, and how one write is driven to its end. */
module PrecisionRuns {
  import opened Basics
  import opened P = PointerSpeeds
  import opened PrecisionSafety

  ghost predicate Possible(m: Mouse, w: World, es: seq<Event>)
    decreases |es|
  {
    es == [] || (Enabled(m, w, es[0]) && Possible(m, Step(m, w, es[0]), es[1..]))
  }

  ghost function Follow(m: Mouse, w: World, es: seq<Event>): World
    requires Possible(m, w, es)
    decreases |es|
  {
    if es == [] then w else Follow(m, Step(m, w, es[0]), es[1..])
  }

  /** Every shift and every change of route of the run is a safe one. */
  ghost predicate SafeRun(m: Mouse, w: World, es: seq<Event>)
    requires Possible(m, w, es)
    decreases |es|
  {
    es == [] || (Safe(m, w, es[0]) && SafeRun(m, Step(m, w, es[0]), es[1..]))
  }

  /** At the precision speed, or about to be, though the mode is off and no restore is owed. */
  ghost predicate Forgotten(m: Mouse, w: World) {
    m.key !in w.s.precision && m.key !in w.s.restore && !Calm(m, w)
  }

  lemma {:induction false} InvAlongRun(m: Mouse, w: World, es: seq<Event>)
    requires Inv(m, w) && Possible(m, w, es) && SafeRun(m, w, es)
    ensures Inv(m, Follow(m, w, es))
    decreases |es|
  {
    if es != [] {
      StepKeeps(m, w, es[0]);
      InvAlongRun(m, Step(m, w, es[0]), es[1..]);
    }
  }

  lemma QuietIsCalm(m: Mouse, w: World)
    requires Quiet(m, w)
    ensures Calm(m, w)
  {}

  lemma KeptIsNotForgotten(m: Mouse, w: World)
    requires Inv(m, w)
    ensures !Forgotten(m, w)
  {
    if m.key !in w.s.precision && m.key !in w.s.restore {
      QuietIsCalm(m, w);
    }
  }

  // --- Runs, step by step ----------------------------------------------------------------

  /** A run of safe steps leads from `w` to `w'`. */
  ghost predicate Reaches(m: Mouse, w: World, w': World) {
    exists es: seq<Event> :: Possible(m, w, es) && SafeRun(m, w, es) && Follow(m, w, es) == w'
  }

  /** No run of safe steps forgets the mouse. */
  ghost predicate NeverForgets(m: Mouse, w: World) {
    forall w' :: Reaches(m, w, w') ==> !Forgotten(m, w')
  }

  lemma {:induction false} Join(m: Mouse, w: World, es: seq<Event>, fs: seq<Event>)
    requires Possible(m, w, es) && Possible(m, Follow(m, w, es), fs)
    ensures Possible(m, w, es + fs) && Follow(m, w, es + fs) == Follow(m, Follow(m, w, es), fs)
    decreases |es|
  {
    if es == [] {
      assert es + fs == fs;
    } else {
      var e, rest := es[0], es[1..];
      assert es + fs == [e] + (rest + fs);
      Join(m, Step(m, w, e), rest, fs);
      Prepend(m, w, e, rest + fs);
    }
  }

  lemma {:induction false} JoinSafe(m: Mouse, w: World, es: seq<Event>, fs: seq<Event>)
    requires Possible(m, w, es) && SafeRun(m, w, es)
    requires Possible(m, Follow(m, w, es), fs) && SafeRun(m, Follow(m, w, es), fs)
    ensures Possible(m, w, es + fs) && SafeRun(m, w, es + fs)
    decreases |es|
  {
    if es == [] {
      assert es + fs == fs;
    } else {
      var e, rest := es[0], es[1..];
      assert es + fs == [e] + (rest + fs);
      JoinSafe(m, Step(m, w, e), rest, fs);
      PrependSafe(m, w, e, rest + fs);
    }
  }

  lemma Prepend(m: Mouse, w: World, e: Event, es: seq<Event>)
    requires Enabled(m, w, e) && Possible(m, Step(m, w, e), es)
    ensures Possible(m, w, [e] + es)
    ensures Follow(m, w, [e] + es) == Follow(m, Step(m, w, e), es)
  {
    assert ([e] + es)[1..] == es;
  }

  lemma PrependSafe(m: Mouse, w: World, e: Event, es: seq<Event>)
    requires Enabled(m, w, e) && Safe(m, w, e) && Possible(m, Step(m, w, e), es) && SafeRun(m, Step(m, w, e), es)
    ensures Possible(m, w, [e] + es) && SafeRun(m, w, [e] + es)
  {
    assert ([e] + es)[1..] == es;
  }

  lemma Stay(m: Mouse, w: World)
    ensures Reaches(m, w, w)
  {
    assert Possible(m, w, []) && SafeRun(m, w, []) && Follow(m, w, []) == w;
  }

  lemma Single(m: Mouse, w: World, e: Event)
    requires Enabled(m, w, e)
    ensures Possible(m, w, [e]) && Follow(m, w, [e]) == Step(m, w, e)
    ensures Safe(m, w, e) ==> SafeRun(m, w, [e])
  {
    assert [e][1..] == [];
  }

  lemma Go(m: Mouse, w: World, e: Event)
    requires Enabled(m, w, e) && Safe(m, w, e)
    ensures Reaches(m, w, Step(m, w, e))
  {
    Single(m, w, e);
  }

  lemma Onward(m: Mouse, a: World, b: World, c: World)
    requires Reaches(m, a, b) && Reaches(m, b, c)
    ensures Reaches(m, a, c)
  {
    var es: seq<Event> :| Possible(m, a, es) && SafeRun(m, a, es) && Follow(m, a, es) == b;
    var fs: seq<Event> :| Possible(m, b, fs) && SafeRun(m, b, fs) && Follow(m, b, fs) == c;
    Join(m, a, es, fs);
    JoinSafe(m, a, es, fs);
  }

  lemma GoOn(m: Mouse, a: World, b: World, e: Event)
    requires Reaches(m, a, b) && Enabled(m, b, e) && Safe(m, b, e)
    ensures Reaches(m, a, Step(m, b, e))
  {
    Go(m, b, e);
    Onward(m, a, b, Step(m, b, e));
  }

  lemma ReachedKeeps(m: Mouse, w: World, w': World)
    requires Inv(m, w) && Reaches(m, w, w')
    ensures Inv(m, w')
  {
    var es: seq<Event> :| Possible(m, w, es) && SafeRun(m, w, es) && Follow(m, w, es) == w';
    InvAlongRun(m, w, es);
  }

  lemma InvNeverForgets(m: Mouse, w: World)
    requires Inv(m, w)
    ensures NeverForgets(m, w)
  {
    forall w' | Reaches(m, w, w') ensures !Forgotten(m, w') {
      ReachedKeeps(m, w, w');
      KeptIsNotForgotten(m, w');
    }
  }

  /** A run from the start whose one unsafe step is `e`. */
  lemma RunThrough(m: Mouse, w: World, e: Event, w': World) returns (es: seq<Event>)
    requires Reaches(m, Start(m), w) && Enabled(m, w, e) && Reaches(m, Step(m, w, e), w')
    ensures Possible(m, Start(m), es) && Follow(m, Start(m), es) == w'
  {
    var before: seq<Event> :|
      Possible(m, Start(m), before) && SafeRun(m, Start(m), before) && Follow(m, Start(m), before) == w;
    var after: seq<Event> :|
      Possible(m, Step(m, w, e), after) && SafeRun(m, Step(m, w, e), after) && Follow(m, Step(m, w, e), after) == w';
    Single(m, w, e);
    Join(m, w, [e], after);
    Join(m, Start(m), before, [e] + after);
    es := before + ([e] + after);
  }

  // --- Driving one write ------------------------------------------------------------------

  ghost predicate Free(w: World, r: DeviceRoute) {
    forall j :: 0 <= j < |w.flights| && w.flights[j].place.route == r ==> !w.flights[j].phase.Running?
  }

  /** Write `i` is the newest where the mouse is, and no write runs there. */
  ghost predicate NextToRun(w: World, i: nat) {
    && i < |w.flights| && w.flights[i].phase.Waiting? && w.flights[i].place.route == w.at
    && w.flights[i].place.ticket == w.s.Newest(w.at) && Free(w, w.at)
  }

  /** `w'` differs from `w` in the phases of writes that ran on `r` only, and none runs there. */
  ghost predicate Freed(w: World, w': World, r: DeviceRoute) {
    && w' == w.(flights := w'.flights) && SameFlights(w, w') && Free(w', r)
    && forall j :: 0 <= j < |w.flights| && !(w.flights[j].place.route == r && w.flights[j].phase.Running?)
                   ==> w'.flights[j] == w.flights[j]
  }

  /** The same writes, in other phases. */
  ghost predicate SameFlights(w: World, w': World) {
    && |w'.flights| == |w.flights|
    && forall j :: 0 <= j < |w.flights| ==> w'.flights[j].place == w.flights[j].place && w'.flights[j].job == w.flights[j].job
  }

  lemma EndingKeepsOrder(w: World, w': World)
    requires Ordered(w) && SameFlights(w, w') && w'.s.issued == w.s.issued
    requires forall j :: 0 <= j < |w.flights| && w'.flights[j].phase.Running? ==> w.flights[j].phase.Running?
    ensures Ordered(w')
  {}

  /** No other write runs on the route of one that runs. */
  lemma OneRuns(w: World, k: nat)
    requires k < |w.flights| && w.flights[k].phase.Running?
    requires forall i, j :: 0 <= i < j < |w.flights| && w.flights[i].place.route == w.flights[j].place.route
               ==> !(w.flights[i].phase.Running? && w.flights[j].phase.Running?)
    ensures forall j :: 0 <= j < |w.flights| && j != k && w.flights[j].place.route == w.flights[k].place.route
              ==> !w.flights[j].phase.Running?
  {}

  lemma Fails(m: Mouse, w: World, k: nat)
    requires k < |w.flights| && w.flights[k].phase.Running?
    ensures Reaches(m, w, SetPhase(w, k, Done))
  {
    Go(m, w, Fail(k, false));
  }

  /** The write that runs on `r`, if any, may fail. */
  lemma Frees(m: Mouse, w: World, r: DeviceRoute) returns (w': World)
    requires Ordered(w)
    ensures Reaches(m, w, w') && Freed(w, w', r) && Ordered(w')
  {
    if Free(w, r) {
      w' := w;
      Stay(m, w);
    } else {
      var k :| 0 <= k < |w.flights| && w.flights[k].place.route == r && w.flights[k].phase.Running?;
      w' := SetPhase(w, k, Done);
      Fails(m, w, k);
      EndingKeepsOrder(w, w');
      OneRuns(w, k);
    }
  }

  lemma Turns(m: Mouse, w: World, i: nat)
    requires NextToRun(w, i)
    ensures Reaches(m, w, SetPhase(w, i, Running(Began)))
  {
    Go(m, w, TakeTurn(i));
  }

  /** A plain write that is next runs and lands. */
  lemma Lands(m: Mouse, w: World, i: nat)
    requires NextToRun(w, i) && w.flights[i].job.Set?
    ensures Reaches(m, w, SetPhase(w, i, Landed).(speed := Effect(m, w, w.flights[i])))
  {
    Turns(m, w, i);
    var w1 := SetPhase(w, i, Running(Began));
    GoOn(m, w, w1, Land(i));
    assert w1.flights[i := w1.flights[i].(phase := Landed)] == w.flights[i := w.flights[i].(phase := Landed)];
  }

  /** The mode is off and nothing is owed; the mouse, the readings and the holds are those of `w`. */
  ghost predicate Settled(m: Mouse, w: World, w': World) {
    && m.key !in w'.s.precision && m.key !in w'.s.restore && Free(w', w'.at)
    && w'.at == w.at && w'.known == w.known && w'.cells == w.cells && w'.holds == w.holds
  }

  /** A plain write that is next and carries the debt lands and reports. */
  lemma Settles(m: Mouse, w: World, i: nat) returns (w': World)
    requires NextToRun(w, i) && w.flights[i].job.Set?
    requires m.key in w.s.restore && m.key !in w.s.precision && w.flights[i].place.restore == w.s.Pending(m.key)
    ensures Reaches(m, w, w') && Settled(m, w, w') && w'.speed == Effect(m, w, w.flights[i])
    ensures w'.s.issued == w.s.issued && |w'.flights| == |w.flights|
    ensures forall j :: 0 <= j < |w.flights| && j != i ==> w'.flights[j] == w.flights[j]
  {
    Lands(m, w, i);
    var landed := SetPhase(w, i, Landed).(speed := Effect(m, w, w.flights[i]));
    w' := Step(m, landed, Report(i));
    GoOn(m, w, landed, Report(i));
  }
}
