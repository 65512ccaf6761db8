/**
  The live event monitor (event_monitor.rs): recorders look at an atomic state and push under a
  `try_lock`, polls enable monitoring and drain, and one janitor disables an idle monitor with a
  compare-and-swap and then clears the buffer.

  A run interleaves single atomic steps of any number of recorders and polls and of the one janitor;
  atomics are sequentially consistent. The history fields record what became of every pushed event.
*/
module EventMonitor {
  import opened Basics

  const CAPACITY: nat := 256

  datatype MonitorState = Disabled | Polled | Idle

  /** A buffered event: its push number, and how often monitoring had been disabled when its recorder looked. */
  datatype Entry = Entry(id: nat, epoch: nat)

  datatype Janitor =
    | Resting
    | Loaded(raw: MonitorState)   // about to compare and swap
    | Swapped                     // it disabled monitoring and wants the buffer
    | Holding                     // it holds the buffer and has not looked again
    | Clearing                    // it holds the buffer and saw monitoring still disabled

  /**
    `recorders` saw monitoring enabled and have not pushed yet; `pollers` enabled it and have not drained
    yet. `polled` tells whether a poll stored since the janitor's last successful swap.
  */
  datatype World = World(
    state: MonitorState, buf: seq<Entry>, janitor: Janitor, recorders: map<nat, nat>, pollers: set<nat>,
    disables: nat, polled: bool, pushes: nat, returned: seq<nat>, evicted: set<nat>, cleared: seq<Entry>,
    clearedAt: seq<nat>)

  const START := World(Disabled, [], Resting, map[], {}, 0, false, 0, [], {}, [], [])

  datatype Event =
    | Look(t: nat)            // a recorder loads the state
    | Push(t: nat)            // its try_lock succeeds
    | Miss(t: nat)            // its try_lock fails
    | StorePolled(t: nat)
    | Drain(t: nat)
    | LoadState               // the janitor's tick begins
    | Swap(spurious: bool)    // its weak compare-and-swap
    | TakeBuffer
    | LookAgain
    | Clear

  predicate BufferFree(w: World) { !w.janitor.Holding? && !w.janitor.Clearing? }

  predicate Enabled(w: World, e: Event) {
    match e
    case Look(t) => t !in w.recorders
    case Push(t) => t in w.recorders && BufferFree(w)
    case Miss(t) => t in w.recorders
    case StorePolled(t) => t !in w.pollers
    case Drain(t) => t in w.pollers && BufferFree(w)
    case LoadState => w.janitor.Resting?
    case Swap(_) => w.janitor.Loaded?
    case TakeBuffer => w.janitor.Swapped?
    case LookAgain => w.janitor.Holding?
    case Clear => w.janitor.Clearing?
  }

  function IdsOf(buf: seq<Entry>): seq<nat> { seq(|buf|, i requires 0 <= i < |buf| => buf[i].id) }

  /** The janitor after it read `raw`: a disabled monitor ends the tick. */
  function AfterLoad(raw: MonitorState): Janitor { if raw.Disabled? then Resting else Loaded(raw) }

  function Pushed(w: World, entry: Entry): World {
    if |w.buf| == CAPACITY
    then w.(buf := w.buf[1..] + [entry], evicted := w.evicted + {w.buf[0].id}, pushes := w.pushes + 1)
    else w.(buf := w.buf + [entry], pushes := w.pushes + 1)
  }

  function Step(w: World, e: Event): World
    requires Enabled(w, e)
  {
    match e
    case Look(t) => if w.state.Disabled? then w else w.(recorders := w.recorders[t := w.disables])
    case Push(t) => Pushed(w, Entry(w.pushes, w.recorders[t])).(recorders := w.recorders - {t})
    case Miss(t) => w.(recorders := w.recorders - {t})
    case StorePolled(t) => w.(state := Polled, pollers := w.pollers + {t}, polled := true)
    case Drain(t) => w.(pollers := w.pollers - {t}, returned := w.returned + IdsOf(w.buf), buf := [])
    case LoadState => w.(janitor := AfterLoad(w.state))
    case Swap(spurious) =>
      if w.state != w.janitor.raw || spurious then w.(janitor := AfterLoad(w.state))
      else if w.state.Polled? then w.(state := Idle, janitor := Resting, polled := false)
      else w.(state := Disabled, janitor := Swapped, disables := w.disables + 1, polled := false)
    case TakeBuffer => w.(janitor := Holding)
    case LookAgain => w.(janitor := if w.state.Disabled? then Clearing else Resting)
    case Clear =>
      w.(janitor := Resting, buf := [], cleared := w.cleared + w.buf,
         clearedAt := w.clearedAt + seq(|w.buf|, i => w.disables))
  }

  // --- The invariant -------------------------------------------------------------------------

  /** Polls return events in push order, once each, and what is buffered is newer. */
  ghost predicate InPushOrder(w: World) {
    && |w.buf| <= CAPACITY
    && (forall i, j :: 0 <= i < j < |w.buf| ==> w.buf[i].id < w.buf[j].id)
    && (forall i, j :: 0 <= i < j < |w.returned| ==> w.returned[i] < w.returned[j])
    && (forall i, j :: 0 <= i < |w.returned| && 0 <= j < |w.buf| ==> w.returned[i] < w.buf[j].id)
    && (forall i :: 0 <= i < |w.buf| ==> w.buf[i].id < w.pushes)
    && (forall i :: 0 <= i < |w.returned| ==> w.returned[i] < w.pushes)
  }

  /** Every event an enabled recorder pushes after a disabling swap keeps the buffer from being cleared for it. */
  ghost predicate Epochs(w: World) {
    && (w.state.Idle? ==> !w.polled)
    && (w.janitor.Loaded? ==> !w.janitor.raw.Disabled?)
    && (forall t :: t in w.recorders ==> w.recorders[t] <= w.disables)
    && (forall i :: 0 <= i < |w.buf| ==> w.buf[i].epoch <= w.disables)
    && (w.state.Disabled? ==>
          && (forall t :: t in w.recorders ==> w.recorders[t] < w.disables)
          && (forall i :: 0 <= i < |w.buf| ==> w.buf[i].epoch < w.disables))
    && (w.janitor.Clearing? ==> forall i :: 0 <= i < |w.buf| ==> w.buf[i].epoch < w.disables)
    && |w.clearedAt| == |w.cleared|
    && (forall i :: 0 <= i < |w.cleared| ==> w.cleared[i].epoch < w.clearedAt[i])
  }

  /** Each pushed event is in exactly one place: returned, evicted, cleared or still buffered. */
  ghost predicate Accounted(w: World) {
    var buffered, cleared := IdsOf(w.buf), IdsOf(w.cleared);
    && (forall id :: id in w.returned || id in w.evicted || id in cleared || id in buffered <==> 0 <= id < w.pushes)
    && (forall id :: id in w.returned ==> id !in w.evicted && id !in cleared && id !in buffered)
    && (forall id :: id in w.evicted ==> id !in cleared && id !in buffered)
    && (forall id :: id in cleared ==> id !in buffered)
  }

  ghost predicate Inv(w: World) { InPushOrder(w) && Epochs(w) && Accounted(w) }

  lemma PushKeepsOrder(w: World, entry: Entry)
    requires InPushOrder(w) && entry.id == w.pushes
    ensures InPushOrder(Pushed(w, entry))
  {
    var w' := Pushed(w, entry);
    var skip := if |w.buf| == CAPACITY then 1 else 0;
    assert forall i :: 0 <= i < |w'.buf| - 1 ==> w'.buf[i] == w.buf[i + skip];
    assert w'.buf[|w'.buf| - 1] == entry;
  }

  lemma DrainKeepsOrder(w: World, t: nat)
    requires InPushOrder(w) && Enabled(w, Drain(t))
    ensures InPushOrder(Step(w, Drain(t)))
  {
    var n, w' := |w.returned|, Step(w, Drain(t));
    assert forall i :: 0 <= i < n ==> w'.returned[i] == w.returned[i];
    assert forall i :: n <= i < |w'.returned| ==> w'.returned[i] == w.buf[i - n].id;
  }

  lemma OrderKept(w: World, e: Event)
    requires InPushOrder(w) && Enabled(w, e)
    ensures InPushOrder(Step(w, e))
  {
    match e
    case Push(t) => PushKeepsOrder(w, Entry(w.pushes, w.recorders[t]));
    case Drain(t) => DrainKeepsOrder(w, t);
    case Clear => assert Step(w, e).returned == w.returned;
    case _ => assert Step(w, e).buf == w.buf && Step(w, e).returned == w.returned;
  }

  lemma PushKeepsEpochs(w: World, t: nat)
    requires Epochs(w) && Enabled(w, Push(t))
    ensures Epochs(Step(w, Push(t)))
  {
    var entry, w' := Entry(w.pushes, w.recorders[t]), Step(w, Push(t));
    assert forall x :: x in w'.buf ==> x == entry || x in w.buf;
  }

  lemma SwapKeepsEpochs(w: World, spurious: bool)
    requires Epochs(w) && Enabled(w, Swap(spurious))
    ensures Epochs(Step(w, Swap(spurious)))
  {}

  lemma ClearKeepsEpochs(w: World)
    requires Epochs(w) && Enabled(w, Clear)
    ensures Epochs(Step(w, Clear))
  {
    var n, w' := |w.cleared|, Step(w, Clear);
    assert forall i :: 0 <= i < n ==> w'.cleared[i] == w.cleared[i] && w'.clearedAt[i] == w.clearedAt[i];
    assert forall i :: n <= i < |w'.cleared| ==> w'.cleared[i] == w.buf[i - n] && w'.clearedAt[i] == w.disables;
  }

  lemma OtherStepsKeepEpochs(w: World, e: Event)
    requires Epochs(w) && Enabled(w, e) && !e.Push? && !e.Swap? && !e.Clear?
    ensures Epochs(Step(w, e))
  {
    assert Step(w, e).cleared == w.cleared && Step(w, e).clearedAt == w.clearedAt && Step(w, e).disables == w.disables;
  }

  lemma EpochsKept(w: World, e: Event)
    requires Epochs(w) && Enabled(w, e)
    ensures Epochs(Step(w, e))
  {
    match e
    case Push(t) => PushKeepsEpochs(w, t);
    case Swap(spurious) => SwapKeepsEpochs(w, spurious);
    case Clear => ClearKeepsEpochs(w);
    case _ => OtherStepsKeepEpochs(w, e);
  }

  lemma PushAccounted(w: World, entry: Entry)
    requires InPushOrder(w) && Accounted(w) && entry.id == w.pushes
    ensures Accounted(Pushed(w, entry))
  {
    var w' := Pushed(w, entry);
    if |w.buf| == CAPACITY {
      assert IdsOf(w.buf) == [w.buf[0].id] + IdsOf(w.buf[1..]);
      assert IdsOf(w'.buf) == IdsOf(w.buf[1..]) + [entry.id];
      assert w.buf[0].id in IdsOf(w.buf);
      assert forall i :: 0 <= i < |w.buf[1..]| ==> w.buf[1..][i].id != w.buf[0].id;
    } else {
      assert IdsOf(w'.buf) == IdsOf(w.buf) + [entry.id];
    }
  }

  lemma DrainAccounted(w: World, t: nat)
    requires Inv(w) && Enabled(w, Drain(t))
    ensures Accounted(Step(w, Drain(t)))
  {
    assert IdsOf([]) == [];
  }

  lemma ClearAccounted(w: World)
    requires Inv(w) && Enabled(w, Clear)
    ensures Accounted(Step(w, Clear))
  {
    assert IdsOf(w.cleared + w.buf) == IdsOf(w.cleared) + IdsOf(w.buf);
  }

  lemma StepKeeps(w: World, e: Event)
    requires Inv(w) && Enabled(w, e)
    ensures Inv(Step(w, e))
  {
    OrderKept(w, e);
    EpochsKept(w, e);
    match e
    case Push(t) => PushAccounted(w, Entry(w.pushes, w.recorders[t]));
    case Drain(t) => DrainAccounted(w, t);
    case Clear => ClearAccounted(w);
    case _ =>
  }

  predicate Possible(w: World, es: seq<Event>)
    decreases |es|
  {
    es == [] || (Enabled(w, es[0]) && Possible(Step(w, es[0]), es[1..]))
  }

  function Run(w: World, es: seq<Event>): World
    requires Possible(w, es)
    decreases |es|
  {
    if es == [] then w else Run(Step(w, es[0]), es[1..])
  }

  lemma {:induction false} InvAlongRun(w: World, es: seq<Event>)
    requires Inv(w) && Possible(w, es)
    ensures Inv(Run(w, es))
    decreases |es|
  {
    if es != [] {
      StepKeeps(w, es[0]);
      InvAlongRun(Step(w, es[0]), es[1..]);
    }
  }

  /** A tick disables monitoring only if no poll stored since the tick before. */
  lemma DisablesOnlyWhenIdle(es: seq<Event>, e: Event)
    requires Possible(START, es) && Enabled(Run(START, es), e)
    ensures var w, w' := Run(START, es), Step(Run(START, es), e);
            !w.state.Disabled? && w'.state.Disabled? ==> e.Swap? && w.state.Idle? && !w.polled
  {
    InvAlongRun(START, es);
  }

  /** A clear never discards an event whose recorder saw monitoring enabled after that tick's swap. */
  lemma ClearSparesReenabledEvents(es: seq<Event>)
    requires Possible(START, es)
    ensures var w := Run(START, es);
            && |w.clearedAt| == |w.cleared|
            && (forall i :: 0 <= i < |w.cleared| ==> w.cleared[i].epoch < w.clearedAt[i])
            && (w.janitor.Clearing? ==> forall i :: 0 <= i < |w.buf| ==> w.buf[i].epoch < w.disables)
  {
    InvAlongRun(START, es);
  }

  /** The buffer stays bounded, polls return events in push order, and every push is accounted for once. */
  lemma EventsAreAccountedFor(es: seq<Event>)
    requires Possible(START, es)
    ensures InPushOrder(Run(START, es)) && Accounted(Run(START, es))
  {
    InvAlongRun(START, es);
  }

  datatype MouseEvent = Button(id: string, pressed: bool) | Scroll(x: real, y: real) | CaptureInterrupted | Moved

  // --- What is kept, and when it ends --------------------------------------------------------------

  /** The buffer holds the newest pushes, and what was evicted has a whole buffer of pushes behind it. */
  ghost predicate KeepsNewest(w: World) {
    && |w.buf| <= w.pushes
    && (forall i :: 0 <= i < |w.buf| ==> w.buf[i].id == w.pushes - |w.buf| + i)
    && (forall id :: id in w.evicted ==> id + CAPACITY < w.pushes)
  }

  lemma PushKeepsNewest(w: World, entry: Entry)
    requires KeepsNewest(w) && |w.buf| <= CAPACITY && entry.id == w.pushes
    ensures KeepsNewest(Pushed(w, entry))
  {
    var w' := Pushed(w, entry);
    var skip := if |w.buf| == CAPACITY then 1 else 0;
    assert forall i :: 0 <= i < |w'.buf| - 1 ==> w'.buf[i] == w.buf[i + skip];
  }

  lemma StepKeepsNewest(w: World, e: Event)
    requires InPushOrder(w) && KeepsNewest(w) && Enabled(w, e)
    ensures KeepsNewest(Step(w, e))
  {
    if e.Push? {
      PushKeepsNewest(w, Entry(w.pushes, w.recorders[e.t]));
    }
  }

  lemma {:induction false} NewestAlongRun(w: World, es: seq<Event>)
    requires Inv(w) && KeepsNewest(w) && Possible(w, es)
    ensures KeepsNewest(Run(w, es))
    decreases |es|
  {
    if es != [] {
      StepKeeps(w, es[0]);
      StepKeepsNewest(w, es[0]);
      NewestAlongRun(Step(w, es[0]), es[1..]);
    }
  }

  /** In every run an event is pushed out only by a whole buffer of later ones. */
  lemma EvictsOnlyTheOldest(es: seq<Event>)
    requires Possible(START, es)
    ensures KeepsNewest(Run(START, es))
  {
    NewestAlongRun(START, es);
  }

  /** An event recorded while monitoring is on is the last one the next poll returns, after all that was buffered but an evicted one. */
  lemma RecordedIsPolled(w: World, t: nat, u: nat)
    requires InPushOrder(w) && w.janitor.Resting? && !w.state.Disabled? && t !in w.recorders && u !in w.pollers
    ensures var polled := PollOnce(Recorded(w, t, true), u);
            var skip := if |w.buf| == CAPACITY then 1 else 0;
            && polled.returned == w.returned + IdsOf(w.buf)[skip..] + [w.pushes]
            && polled.state.Polled? && polled.buf == [] && polled.pushes == w.pushes + 1
  {
    RecordedIs(w, t, true);
    var entry := Entry(w.pushes, w.disables);
    var skip := if |w.buf| == CAPACITY then 1 else 0;
    assert Pushed(w, entry).buf == w.buf[skip..] + [entry];
    assert IdsOf(w.buf[skip..] + [entry]) == IdsOf(w.buf)[skip..] + [w.pushes];
  }

  /** One tick without a poll leaves monitoring on and keeps the buffer; the second turns it off and clears what is left. */
  lemma TwoTicksDisable(w: World)
    requires w.janitor.Resting? && w.state.Polled?
    ensures var once := Ticked(w);
            && once.janitor.Resting? && !once.state.Disabled? && once.buf == w.buf
            && var twice := Ticked(once);
               twice.janitor.Resting? && twice.state.Disabled? && twice.buf == [] && twice.cleared == w.cleared + w.buf
  {}

  // --- The object -------------------------------------------------------------------------------

  /** One call of `record` with nothing between its steps. */
  function Recorded(w: World, t: nat, pushes: bool): World
    requires t !in w.recorders && w.janitor.Resting?
  {
    var looked := Step(w, Look(t));
    if t !in looked.recorders then looked else if pushes then Step(looked, Push(t)) else Step(looked, Miss(t))
  }

  lemma RecordedIs(w: World, t: nat, pushes: bool)
    requires t !in w.recorders && w.janitor.Resting?
    ensures Recorded(w, t, pushes)
            == if w.state.Disabled? || !pushes then w else Pushed(w, Entry(w.pushes, w.disables))
  {
    assert w.recorders[t := w.disables] - {t} == w.recorders;
  }

  /** `buf` holds the events of the entries buffered in `w`, of all that were `pushed`. */
  ghost predicate Mirrors(w: World, buf: seq<MouseEvent>, pushed: seq<MouseEvent>) {
    && InPushOrder(w) && |pushed| == w.pushes && |buf| == |w.buf|
    && forall i :: 0 <= i < |buf| ==> buf[i] == pushed[w.buf[i].id]
  }

  lemma PushMirrors(w: World, epoch: nat, buf: seq<MouseEvent>, pushed: seq<MouseEvent>, event: MouseEvent)
    requires Mirrors(w, buf, pushed)
    ensures Mirrors(Pushed(w, Entry(w.pushes, epoch)), (if |buf| == CAPACITY then buf[1..] else buf) + [event],
                    pushed + [event])
  {
    var entry := Entry(w.pushes, epoch);
    var w' := Pushed(w, entry);
    PushKeepsOrder(w, entry);
    var skip := if |w.buf| == CAPACITY then 1 else 0;
    assert forall i :: 0 <= i < |w'.buf| - 1 ==> w'.buf[i] == w.buf[i + skip] && w.buf[i + skip].id < w.pushes;
  }

  /** One call of `poll`. */
  function PollOnce(w: World, t: nat): World
    requires t !in w.pollers && w.janitor.Resting?
  {
    Step(Step(w, StorePolled(t)), Drain(t))
  }

  /** One tick of the janitor. */
  function Ticked(w: World): World
    requires w.janitor.Resting?
  {
    var loaded := Step(w, LoadState);
    if loaded.janitor.Resting? then loaded else
    var swapped := Step(loaded, Swap(false));
    if swapped.janitor.Resting? then swapped else Step(Step(Step(swapped, TakeBuffer), LookAgain), Clear)
  }

  /** The monitor between calls: `world` is its place in a run, and `pushed` the events pushed so far, by number. */
  class Monitor {
    var state: MonitorState
    var buf: seq<MouseEvent>
    ghost var world: World
    ghost var pushed: seq<MouseEvent>

    ghost predicate Valid() reads this {
      state == world.state && world.janitor.Resting? && Mirrors(world, buf, pushed)
    }

    constructor ()
      ensures Valid() && world == START && pushed == []
    {
      state, buf, world, pushed := Disabled, [], START, [];
    }

    /** `locked`: the `try_lock` of the buffer succeeds. */
    method Record(event: MouseEvent, locked: bool, ghost t: nat)
      requires Valid() && t !in world.recorders
      modifies this
      ensures Valid() && state == old(state)
      ensures world == Recorded(old(world), t, !event.Moved? && locked)
      ensures pushed == if old(world).pushes < world.pushes then old(pushed) + [event] else old(pushed)
    {
      RecordedIs(world, t, !event.Moved? && locked);
      PushMirrors(world, world.disables, buf, pushed, event);
      world := Recorded(world, t, !event.Moved? && locked);
      if state.Disabled? || event.Moved? {
        return;
      }
      if locked {
        if |buf| == CAPACITY {
          buf := buf[1..];
        }
        buf := buf + [event];
        pushed := pushed + [event];
      }
    }

    /** The events returned are the pushed ones whose numbers the run records as returned. */
    method Poll(ghost t: nat) returns (events: seq<MouseEvent>)
      requires Valid() && t !in world.pollers
      modifies this
      ensures Valid() && world == PollOnce(old(world), t) && pushed == old(pushed)
      ensures |world.returned| == |old(world).returned| + |events|
      ensures forall i :: 0 <= i < |events| ==>
                var id := world.returned[|old(world).returned| + i]; id < |pushed| && events[i] == pushed[id]
    {
      DrainKeepsOrder(Step(world, StorePolled(t)), t);
      world := PollOnce(world, t);
      state := Polled;
      events, buf := buf, [];
    }

    /** One tick whose compare-and-swap fails `spurious` times before it succeeds. */
    method IdleTick(spurious: nat)
      requires Valid()
      modifies this
      ensures Valid() && world == Ticked(old(world)) && pushed == old(pushed)
    {
      var raw, failures := state, spurious;
      world := Step(world, LoadState);
      while true
        invariant raw == state == old(state) && buf == old(buf) && pushed == old(pushed)
        invariant world == Step(old(world), LoadState)
        decreases failures
      {
        if raw.Disabled? {
          return;
        }
        if failures == 0 {
          break;
        }
        world := Step(world, Swap(true));
        failures, raw := failures - 1, state;
      }
      world := Step(world, Swap(false));
      state := if raw.Polled? then Idle else Disabled;
      if state.Disabled? {
        world := Step(Step(world, TakeBuffer), LookAgain);
        if state.Disabled? {
          world := Step(world, Clear);
          buf := [];
        }
      }
    }
  }
}
