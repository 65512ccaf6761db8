/**
  The DPI a mouse had before a held shift (dpi.rs `DpiBeforeShift`, with the write bodies
  `write_pointer_speed_in_background` and `restore_dpi_in_background` of hardware.rs).

  One mouse whose DPI OpenLogi never set. Presses and releases overlap freely; each low write and each
  restore is numbered, waits, may be skipped, fail, or land, and the sensor is read into the shared
  cell by whichever low write runs while the cell is empty.
*/
module DpiBeforeShift {
  import opened Basics

  type Token = nat
  type Dpi = nat

  datatype Job = Low(dpi: Dpi) | Back
  datatype Phase =
    | Waiting
    | Running             // holds its turn
    | Sensed              // a low write that has its reading
    | Aiming(dpi: Dpi)    // a restore that has its target
    | Landed(wrote: Dpi)
    | Nothing             // a restore that found no reading
    | Skipped
    | Failed

  datatype Flight = Flight(job: Job, phase: Phase)

  /** The number of a write is its position in `flights`. */
  datatype World = World(held: set<Token>, flights: seq<Flight>, before: Option<Dpi>, sensor: Dpi)

  function Start(original: Dpi): World { World({}, [], None, original) }

  datatype Event =
    | Hold(press: Token, low: Dpi)
    | Release(press: Token)
    | TakeTurn(i: nat)
    | Abandon(i: nat)
    | Sense(i: nat)
    | Choose(i: nat)
    | Land(i: nat)
    | Fail(i: nat, took: bool)

  predicate Active(f: Flight) { f.phase.Running? || f.phase.Sensed? || f.phase.Aiming? }

  predicate Enabled(w: World, e: Event) {
    match e
    case Hold(_, _) => true
    case Release(_) => true
    case TakeTurn(i) =>
      i < |w.flights| && w.flights[i].phase.Waiting? && forall j :: 0 <= j < |w.flights| ==> !Active(w.flights[j])
    case Abandon(i) => i < |w.flights| && w.flights[i].phase.Waiting?
    case Sense(i) => i < |w.flights| && w.flights[i].job.Low? && w.flights[i].phase.Running?
    case Choose(i) => i < |w.flights| && w.flights[i].job.Back? && w.flights[i].phase.Running?
    case Land(i) => i < |w.flights| && (w.flights[i].phase.Sensed? || w.flights[i].phase.Aiming?)
    case Fail(i, took) =>
      i < |w.flights| && Active(w.flights[i]) && (took ==> !w.flights[i].phase.Running?)
  }

  function Put(w: World, i: nat, phase: Phase): World
    requires i < |w.flights|
  {
    w.(flights := w.flights[i := w.flights[i].(phase := phase)])
  }

  /** What write `f` puts on the sensor. */
  function Aim(f: Flight): Dpi
    requires f.phase.Sensed? ==> f.job.Low?
    requires f.phase.Sensed? || f.phase.Aiming?
  {
    if f.phase.Aiming? then f.phase.dpi else f.job.dpi
  }

  /** A low write is sensed, a restore aims. */
  predicate Typed(w: World) {
    forall i :: 0 <= i < |w.flights| ==>
      (w.flights[i].phase.Sensed? ==> w.flights[i].job.Low?) && (w.flights[i].phase.Aiming? ==> w.flights[i].job.Back?)
  }

  function Step(w: World, e: Event): World
    requires Typed(w) && Enabled(w, e)
  {
    match e
    case Hold(press, low) =>
      var w' := w.(held := w.held + {press});
      if w.held == {} then w'.(flights := w.flights + [Flight(Low(low), Waiting)]) else w'
    case Release(press) =>
      var w' := w.(held := w.held - {press});
      if press in w.held && w'.held == {} then w'.(flights := w.flights + [Flight(Back, Waiting)]) else w'
    case TakeTurn(i) => Put(w, i, if i == |w.flights| - 1 then Running else Skipped)
    case Abandon(i) => Put(w, i, Failed)
    case Sense(i) => Put(w, i, Sensed).(before := if w.before.None? then Some(w.sensor) else w.before)
    case Choose(i) => Put(w, i, if w.before.None? then Nothing else Aiming(w.before.value))
    case Land(i) =>
      var dpi := Aim(w.flights[i]);
      Put(w, i, Landed(dpi)).(sensor := dpi, before := if w.flights[i].job.Back? then None else w.before)
    case Fail(i, took) => Put(w, i, Failed).(sensor := if took then Aim(w.flights[i]) else w.sensor)
  }

  /** The stored reading is the original DPI, or there is none and the sensor is at the original. */
  ghost predicate Remembers(original: Dpi, w: World) {
    w.before == Some(original) || (w.before.None? && w.sensor == original)
  }

  ghost predicate Inv(original: Dpi, w: World) {
    && Typed(w) && Remembers(original, w)
    && (forall i :: 0 <= i < |w.flights| && w.flights[i].phase.Sensed? ==> w.before == Some(original))
    && (forall i :: 0 <= i < |w.flights| && w.flights[i].phase.Aiming? ==> w.flights[i].phase.dpi == original)
    && (forall i :: 0 <= i < |w.flights| && w.flights[i].job.Back? && w.flights[i].phase.Landed?
          ==> w.flights[i].phase.wrote == original)
    // An active write is alone, and nothing newer has had its turn.
    && (forall i, j :: 0 <= i < j < |w.flights| && Active(w.flights[i])
          ==> w.flights[j].phase.Waiting? || w.flights[j].phase.Failed?)
    // Holds and restores alternate.
    && (w.held == {} <==> w.flights == [] || w.flights[|w.flights| - 1].job.Back?)
    && (w.flights == [] ==> w.sensor == original)
    && (w.flights != [] && w.flights[|w.flights| - 1].job.Back?
        && (w.flights[|w.flights| - 1].phase.Landed? || w.flights[|w.flights| - 1].phase.Nothing?)
        ==> w.sensor == original)
    && (w.flights != [] ==> !w.flights[|w.flights| - 1].phase.Skipped?)
  }

  /** A new press or release may number one more write. */
  lemma PressKeeps(original: Dpi, w: World, e: Event)
    requires Inv(original, w) && (e.Hold? || e.Release?)
    ensures Inv(original, Step(w, e))
  {
    var w' := Step(w, e);
    assert forall i :: 0 <= i < |w.flights| ==> w'.flights[i] == w.flights[i];
    assert e.Release? && e.press !in w.held ==> w'.held == w.held;
  }

  lemma TurnKeeps(original: Dpi, w: World, e: Event)
    requires Inv(original, w) && Enabled(w, e) && (e.TakeTurn? || e.Abandon? || e.Sense? || e.Choose?)
    ensures Inv(original, Step(w, e))
  {}

  lemma EndKeeps(original: Dpi, w: World, e: Event)
    requires Inv(original, w) && Enabled(w, e) && (e.Land? || e.Fail?)
    ensures Inv(original, Step(w, e))
  {}

  lemma StepKeeps(original: Dpi, w: World, e: Event)
    requires Inv(original, w) && Enabled(w, e)
    ensures Inv(original, Step(w, e))
  {
    if e.Hold? || e.Release? { PressKeeps(original, w, e); }
    else if e.Land? || e.Fail? { EndKeeps(original, w, e); }
    else { TurnKeeps(original, w, e); }
  }

  ghost predicate Possible(w: World, es: seq<Event>)
    decreases |es|
  {
    es == [] || (Typed(w) && Enabled(w, es[0]) && Possible(Step(w, es[0]), es[1..]))
  }

  ghost function Follow(w: World, es: seq<Event>): World
    requires Possible(w, es)
    decreases |es|
  {
    if es == [] then w else Follow(Step(w, es[0]), es[1..])
  }

  lemma {:induction false} InvAlongRun(original: Dpi, w: World, es: seq<Event>)
    requires Inv(original, w) && Possible(w, es)
    ensures Inv(original, Follow(w, es))
    decreases |es|
  {
    if es != [] {
      StepKeeps(original, w, es[0]);
      InvAlongRun(original, Step(w, es[0]), es[1..]);
    }
  }

  /** In every run, the shifted DPI is never taken for the original. */
  lemma NeverMistaken(original: Dpi, es: seq<Event>)
    requires Possible(Start(original), es)
    ensures var w := Follow(Start(original), es);
            && Remembers(original, w)
            && (forall i :: 0 <= i < |w.flights| && w.flights[i].job.Back? && w.flights[i].phase.Landed?
                  ==> w.flights[i].phase.wrote == original)
  {
    InvAlongRun(original, Start(original), es);
  }

  /** With every press released and the newest write over without failing, the sensor is back at the original. */
  lemma ReleasedIsRestored(original: Dpi, es: seq<Event>)
    requires Possible(Start(original), es)
    ensures var w := Follow(Start(original), es);
            w.held == {} && (w.flights != [] ==> var last := w.flights[|w.flights| - 1];
                                                 !last.phase.Waiting? && !Active(last) && !last.phase.Failed?)
            ==> w.sensor == original
  {
    InvAlongRun(original, Start(original), es);
  }

  // --- A whole shift -------------------------------------------------------------------------------

  ghost predicate AtRest(w: World) {
    forall i :: 0 <= i < |w.flights| ==> !Active(w.flights[i])
  }

  /** The low write of a first press: it reads the original unless that is stored, and the sensor is at the low DPI. */
  lemma ShiftsDown(original: Dpi, w: World, press: Token, low: Dpi)
    requires Inv(original, w) && w.held == {} && AtRest(w)
    ensures var n := |w.flights|;
            var es := [Hold(press, low), TakeTurn(n), Sense(n), Land(n)];
            && Possible(w, es)
            && var down := Follow(w, es);
               && down.held == {press} && down.sensor == low && down.before == Some(original)
               && Inv(original, down) && AtRest(down) && |down.flights| == n + 1
  {
    var n := |w.flights|;
    var w1 := Step(w, Hold(press, low));
    var w2 := Step(w1, TakeTurn(n));
    var w3 := Step(w2, Sense(n));
    var w4 := Step(w3, Land(n));
    Prepend(w3, Land(n), []);
    Prepend(w2, Sense(n), [Land(n)] + []);
    Prepend(w1, TakeTurn(n), [Sense(n)] + ([Land(n)] + []));
    Prepend(w, Hold(press, low), [TakeTurn(n)] + ([Sense(n)] + ([Land(n)] + [])));
    InvAlongRun(original, w, [Hold(press, low)] + ([TakeTurn(n)] + ([Sense(n)] + ([Land(n)] + []))));
    assert [Hold(press, low), TakeTurn(n), Sense(n), Land(n)] == [Hold(press, low)] + ([TakeTurn(n)] + ([Sense(n)] + ([Land(n)] + [])));
  }

  /** The restore of the last release puts the original back and forgets the reading. */
  lemma ShiftsBack(original: Dpi, w: World, press: Token)
    requires Inv(original, w) && w.held == {press} && AtRest(w) && w.before == Some(original)
    ensures var n := |w.flights|;
            var es := [Release(press), TakeTurn(n), Choose(n), Land(n)];
            && Possible(w, es)
            && var back := Follow(w, es);
               back.held == {} && back.sensor == original && back.before.None? && Inv(original, back) && AtRest(back)
  {
    var n := |w.flights|;
    var w1 := Step(w, Release(press));
    assert w1.flights == w.flights + [Flight(Back, Waiting)];
    var w2 := Step(w1, TakeTurn(n));
    assert w2.flights == w.flights + [Flight(Back, Running)];
    var w3 := Step(w2, Choose(n));
    assert w3.flights == w.flights + [Flight(Back, Aiming(original))];
    var w4 := Step(w3, Land(n));
    assert w4.flights == w.flights + [Flight(Back, Landed(original))];
    Prepend(w3, Land(n), []);
    Prepend(w2, Choose(n), [Land(n)] + []);
    Prepend(w1, TakeTurn(n), [Choose(n)] + ([Land(n)] + []));
    Prepend(w, Release(press), [TakeTurn(n)] + ([Choose(n)] + ([Land(n)] + [])));
    InvAlongRun(original, w, [Release(press)] + ([TakeTurn(n)] + ([Choose(n)] + ([Land(n)] + []))));
    assert [Release(press), TakeTurn(n), Choose(n), Land(n)] == [Release(press)] + ([TakeTurn(n)] + ([Choose(n)] + ([Land(n)] + [])));
  }

  lemma Prepend(w: World, e: Event, es: seq<Event>)
    requires Typed(w) && Enabled(w, e) && Possible(Step(w, e), es)
    ensures Possible(w, [e] + es) && Follow(w, [e] + es) == Follow(Step(w, e), es)
  {
    assert ([e] + es)[1..] == es;
  }
}
