/**
  The transient indicators (backlight_overlay.rs, lock_keys.rs): each change is published under a new
  generation, and a timer started with it hides it later unless a newer change was published meanwhile.
  Generations are unbounded. Times are milliseconds.
*/
module Indicators {
  import opened Basics

  type Time = nat
  const DISPLAY_LIFETIME: Time := 1500

  /** The delayed task of one change: its generation, when the change was shown, and whether it has run. */
  datatype Timer<T> = Timer(stamp: nat, shownAt: Time, visible: bool, content: T, fired: bool)

  datatype World<T> = World(clock: Time, generation: nat, visible: bool, content: T, timers: seq<Timer<T>>)

  function Start<T>(generation: nat, content: T): World<T> { World(0, generation, false, content, []) }

  datatype Event<T> = Show(content: T, visible: bool) | Fire(i: nat) | Pass(time: Time)

  predicate Enabled<T>(w: World<T>, e: Event<T>) {
    e.Fire? ==> e.i < |w.timers| && !w.timers[e.i].fired && w.timers[e.i].shownAt + DISPLAY_LIFETIME <= w.clock
  }

  function Step<T>(w: World<T>, e: Event<T>): World<T>
    requires Enabled(w, e)
  {
    match e
    case Show(content, visible) =>
      w.(generation := w.generation + 1, visible := visible, content := content,
         timers := w.timers + [Timer(w.generation + 1, w.clock, visible, content, false)])
    case Fire(i) =>
      var w' := w.(timers := w.timers[i := w.timers[i].(fired := true)]);
      if w.generation == w.timers[i].stamp then w'.(generation := w.generation + 1, visible := false) else w'
    case Pass(time) => w.(clock := w.clock + time)
  }

  ghost predicate Inv<T>(w: World<T>) {
    && (forall i :: 0 <= i < |w.timers| ==> w.timers[i].stamp <= w.generation && w.timers[i].shownAt <= w.clock)
    && (forall i, j :: 0 <= i < j < |w.timers| ==> w.timers[i].stamp < w.timers[j].stamp)
    && (forall i :: 0 <= i < |w.timers| && w.timers[i].fired ==> w.timers[i].shownAt + DISPLAY_LIFETIME <= w.clock)
    && (if w.timers == [] then !w.visible else
        var last := w.timers[|w.timers| - 1];
        && w.content == last.content
        && (last.fired ==> !w.visible && last.stamp < w.generation)
        && (!last.fired ==> w.visible == last.visible && last.stamp == w.generation))
  }

  lemma ShowKeeps<T>(w: World<T>, content: T, visible: bool)
    requires Inv(w)
    ensures Inv(Step(w, Show(content, visible)))
  {
    var w' := Step(w, Show(content, visible));
    assert forall i :: 0 <= i < |w.timers| ==> w'.timers[i] == w.timers[i];
  }

  lemma FireKeeps<T>(w: World<T>, i: nat)
    requires Inv(w) && Enabled(w, Fire(i))
    ensures Inv(Step(w, Fire(i)))
  {
    var w' := Step(w, Fire(i));
    assert forall j :: 0 <= j < |w.timers| ==> w'.timers[j].stamp == w.timers[j].stamp && w'.timers[j].shownAt == w.timers[j].shownAt;
  }

  lemma StepKeeps<T>(w: World<T>, e: Event<T>)
    requires Inv(w) && Enabled(w, e)
    ensures Inv(Step(w, e))
    ensures var w' := Step(w, e);
            w.generation <= w'.generation
            && (w.generation == w'.generation ==> w'.visible == w.visible && w'.content == w.content)
  {
    match e
    case Show(content, visible) => ShowKeeps(w, content, visible);
    case Fire(i) => FireKeeps(w, i);
    case Pass(_) =>
  }

  predicate Possible<T>(w: World<T>, es: seq<Event<T>>)
    decreases |es|
  {
    es == [] || (Enabled(w, es[0]) && Possible(Step(w, es[0]), es[1..]))
  }

  function Run<T>(w: World<T>, es: seq<Event<T>>): World<T>
    requires Possible(w, es)
    decreases |es|
  {
    if es == [] then w else Run(Step(w, es[0]), es[1..])
  }

  /** The generation only rises, and a generation seen twice shows the same thing. */
  lemma {:induction false} RunKeeps<T>(w: World<T>, es: seq<Event<T>>)
    requires Inv(w) && Possible(w, es)
    ensures Inv(Run(w, es))
    ensures var w' := Run(w, es);
            w.generation <= w'.generation
            && (w.generation == w'.generation ==> w'.visible == w.visible && w'.content == w.content)
    decreases |es|
  {
    if es != [] {
      StepKeeps(w, es[0]);
      RunKeeps(Step(w, es[0]), es[1..]);
    }
  }

  /** Something is shown exactly when the newest change was visible and its timer is still to run. */
  lemma ShownUntilItsOwnTimer<T>(g: nat, content: T, es: seq<Event<T>>)
    requires Possible(Start(g, content), es)
    ensures var w := Run(Start(g, content), es);
            w.visible <==>
              w.timers != [] && var last := w.timers[|w.timers| - 1];
                                last.visible && !last.fired && last.stamp == w.generation && last.content == w.content
  {
    RunKeeps(Start(g, content), es);
  }

  /** An older timer never hides, nor changes, what a newer change shows. */
  lemma OlderTimersChangeNothing<T>(g: nat, content: T, es: seq<Event<T>>, i: nat)
    requires Possible(Start(g, content), es)
    requires var w := Run(Start(g, content), es); Enabled(w, Fire(i)) && i < |w.timers| - 1
    ensures var w := Run(Start(g, content), es);
            var w' := Step(w, Fire(i));
            w' == w.(timers := w'.timers)
  {
    RunKeeps(Start(g, content), es);
  }

  /** When every due timer has run, the indicator is on exactly during the lifetime of the newest change. */
  lemma ShownForItsLifetime<T>(g: nat, content: T, es: seq<Event<T>>)
    requires Possible(Start(g, content), es)
    requires var w := Run(Start(g, content), es);
             forall i :: 0 <= i < |w.timers| && !w.timers[i].fired ==> w.clock < w.timers[i].shownAt + DISPLAY_LIFETIME
    ensures var w := Run(Start(g, content), es);
            w.visible <==>
              w.timers != [] && w.timers[|w.timers| - 1].visible
              && w.clock < w.timers[|w.timers| - 1].shownAt + DISPLAY_LIFETIME
  {
    RunKeeps(Start(g, content), es);
  }

  // --- What is shown, told by the changes -----------------------------------------------------------

  function Passed<T>(es: seq<Event<T>>): Time
    decreases |es|
  {
    if es == [] then 0 else Passed(es[..|es| - 1]) + if es[|es| - 1].Pass? then es[|es| - 1].time else 0
  }

  /** Event `i` is the last change of the run. */
  ghost predicate LastChange<T>(es: seq<Event<T>>, i: nat) {
    i < |es| && es[i].Show? && forall j :: i < j < |es| ==> !es[j].Show?
  }

  lemma {:induction false} RunLast<T>(w: World<T>, es: seq<Event<T>>)
    requires es != [] && Possible(w, es)
    ensures var init, e := es[..|es| - 1], es[|es| - 1];
            Possible(w, init) && Enabled(Run(w, init), e) && Run(w, es) == Step(Run(w, init), e)
    decreases |es|
  {
    if |es| > 1 {
      RunLast(Step(w, es[0]), es[1..]);
      assert es[1..][..|es| - 2] == es[..|es| - 1][1..];
    }
  }

  /** The newest timer is that of the last change, as old as the time that has passed since. */
  lemma {:induction false} TimerOfLastChange<T>(w: World<T>, es: seq<Event<T>>, i: nat)
    requires Possible(w, es) && LastChange(es, i)
    ensures var w' := Run(w, es);
            && w'.timers != []
            && var last := w'.timers[|w'.timers| - 1];
               && last.content == es[i].content && last.visible == es[i].visible
               && last.shownAt + Passed(es[i..]) == w'.clock
    decreases |es|
  {
    RunLast(w, es);
    var n := |es| - 1;
    if i < n {
      TimerOfLastChange(w, es[..n], i);
      assert es[i..][..n - i] == es[..n][i..];
    } else {
      assert es[i..] == [es[i]] && es[i..][..0] == [];
    }
  }

  /** When every due timer has run, the last change is shown for its lifetime and nothing is shown after, or without one. */
  lemma ShowsTheLastChange<T>(g: nat, content: T, es: seq<Event<T>>, i: nat)
    requires Possible(Start(g, content), es) && LastChange(es, i)
    requires var w := Run(Start(g, content), es);
             forall j :: 0 <= j < |w.timers| && !w.timers[j].fired ==> w.clock < w.timers[j].shownAt + DISPLAY_LIFETIME
    ensures var w := Run(Start(g, content), es);
            w.content == es[i].content && (w.visible <==> es[i].visible && Passed(es[i..]) < DISPLAY_LIFETIME)
  {
    RunKeeps(Start(g, content), es);
    TimerOfLastChange(Start(g, content), es, i);
    ShownForItsLifetime(g, content, es);
  }

  lemma {:induction false} NothingShownUnchanged<T>(w: World<T>, es: seq<Event<T>>)
    requires Possible(w, es) && w.timers == [] && forall j :: 0 <= j < |es| ==> !es[j].Show?
    ensures Run(w, es).visible == w.visible && Run(w, es).generation == w.generation && Run(w, es).timers == []
    decreases |es|
  {
    if es != [] {
      NothingShownUnchanged(Step(w, es[0]), es[1..]);
    }
  }

  datatype BacklightObservation =
    BacklightObservation(generation: nat, currentLevel: nat, levels: nat, visible: bool)

  class BacklightOverlayManager {
    var generation: nat
    var published: BacklightObservation
    var timers: seq<Timer<(nat, nat)>>
    ghost var clock: Time

    ghost predicate Valid() reads this { published.generation == generation && Inv(Model()) }

    ghost function Model(): World<(nat, nat)> reads this {
      World(clock, generation, published.visible, (published.currentLevel, published.levels), timers)
    }

    constructor ()
      ensures Valid() && Model() == Start(0, (0, 0))
    {
      generation, published, timers, clock := 0, BacklightObservation(0, 0, 0, false), [], 0;
    }

    method ShowLevel(currentLevel: nat, levels: nat, visible: bool, now: Time)
      requires Valid() && now == clock
      modifies this
      ensures Valid() && Model() == Step(old(Model()), Show((currentLevel, levels), visible))
    {
      StepKeeps(Model(), Show((currentLevel, levels), visible));
      generation := generation + 1;
      published := BacklightObservation(generation, currentLevel, levels, visible);
      timers := timers + [Timer(generation, now, visible, (currentLevel, levels), false)];
    }

    method Hide(i: nat)
      requires Valid() && Enabled(Model(), Fire(i))
      modifies this
      ensures Valid() && Model() == Step(old(Model()), Fire(i))
    {
      StepKeeps(Model(), Fire(i));
      var stamp := timers[i].stamp;
      timers := timers[i := timers[i].(fired := true)];
      if generation == stamp {
        generation := generation + 1;
        published := published.(generation := generation, visible := false);
      }
    }
  }

  datatype LockKeyChange = LockKeyChange(lockKey: string, on: bool)
  datatype LockKeyObservation =
    LockKeyObservation(generation: nat, shown: Option<LockKeyChange>, language: Option<string>)

  class LockKeyIndicator {
    var published: LockKeyObservation
    var timers: seq<Timer<LockKeyChange>>
    ghost var clock: Time
    ghost var newest: LockKeyChange   // the last change shown, also after it was hidden

    ghost predicate Valid() reads this {
      Inv(Model()) && (published.shown.Some? ==> published.shown == Some(newest))
    }

    ghost function Model(): World<LockKeyChange> reads this {
      World(clock, published.generation, published.shown.Some?, newest, timers)
    }

    constructor ()
      ensures Valid() && published == LockKeyObservation(1, None, None) && timers == []
    {
      published, timers, clock := LockKeyObservation(1, None, None), [], 0;
    }

    method Announce(change: LockKeyChange, notify: bool, indicatedHere: bool, language: Option<string>, now: Time)
      returns (shown: bool)
      requires Valid() && now == clock
      modifies this
      ensures Valid() && shown == (notify && indicatedHere)
      ensures shown ==> Model() == Step(old(Model()), Show(change, true))
                        && published.shown == Some(change) && published.language == language
      ensures !shown ==> Model() == old(Model()) && published == old(published)
    {
      if !notify || !indicatedHere {
        return false;
      }
      StepKeeps(Model(), Show(change, true));
      published := LockKeyObservation(published.generation + 1, Some(change), language);
      timers := timers + [Timer(published.generation, now, true, change, false)];
      newest := change;
      return true;
    }

    method Hide(i: nat)
      requires Valid() && Enabled(Model(), Fire(i))
      modifies this
      ensures Valid() && Model() == Step(old(Model()), Fire(i))
      ensures published.language == old(published.language)
    {
      StepKeeps(Model(), Fire(i));
      var stamp := timers[i].stamp;
      timers := timers[i := timers[i].(fired := true)];
      if published.generation == stamp {
        published := published.(generation := published.generation + 1, shown := None);
      }
    }
  }
}
