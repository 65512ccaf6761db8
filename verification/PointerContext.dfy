/**
  The pointer context the agent holds back while the Actions Ring shows (lifecycle.rs).

  The lifecycle loop takes pointer events and ring wakeups one at a time; ring commands arrive from
  other threads between any two of its steps.
*/
module PointerContext {
  import opened Basics
  import R = ActionRing

  datatype PointerTarget = Window(processId: int, windowId: nat) | Desktop | Unavailable | Unsupported
  datatype Context = Context(app: Option<string>, target: PointerTarget)

  const UNIDENTIFIED := Context(None, Unavailable)

  /** Between events, deciding on a pointer context, or woken by a ring change. */
  datatype Pc = Idle | Deciding(context: Context, overRing: bool) | Woken

  /**
    `latest` is the newest context the loop finished taking, `seen` the ring generation of the last wakeup.
  */
  datatype World = World(
    ring: R.World, held: Option<Context>, applied: Option<Context>, latest: Option<Context>, seen: nat, pc: Pc)

  const START := World(R.START, None, None, None, 1, Idle)

  datatype Event =
    | RingCommand(e: R.Event)
    | Pointer(context: Context, now: nat)
    | Decide
    | PointerLost
    | Wake
    | Check(now: nat)

  function Generation(w: World): nat { w.ring.ring.published.generation }

  predicate Enabled(w: World, e: Event) {
    match e
    case RingCommand(c) => R.Enabled(w.ring, c)
    case Pointer(_, _) => w.pc.Idle?
    case Decide => w.pc.Deciding?
    case PointerLost => w.pc.Idle?
    case Wake => w.pc.Idle? && Generation(w) != w.seen
    case Check(_) => w.pc.Woken?
  }

  function Apply(w: World, context: Context): World {
    w.(held := None, applied := Some(context), latest := Some(context), pc := Idle)
  }

  function Step(w: World, e: Event): World
    requires Enabled(w, e)
  {
    match e
    case RingCommand(c) => w.(ring := R.Step(w.ring, c))
    case Pointer(context, now) =>
      if context.target.Unavailable? then
        var ring := R.Step(w.ring, R.Asking(now));
        w.(ring := ring, pc := Deciding(context, R.Showing(ring.ring)))
      else
        w.(pc := Deciding(context, false))
    case Decide =>
      if w.pc.overRing then w.(held := Some(w.pc.context), latest := Some(w.pc.context), pc := Idle)
      else Apply(w, w.pc.context)
    case PointerLost => Apply(w, UNIDENTIFIED)
    case Wake => w.(seen := Generation(w), pc := Woken)
    case Check(now) =>
      if w.held.None? then w.(pc := Idle) else
      var ring := R.Step(w.ring, R.Asking(now));
      if R.Showing(ring.ring) then w.(ring := ring, pc := Idle)
      else w.(ring := ring, applied := w.held, held := None, pc := Idle)
  }

  /** The applied context is the latest, or the latest is unidentified and held. */
  ghost predicate LatestIsKnown(w: World) {
    if w.held.None? then w.applied == w.latest
    else w.held == w.latest && w.held.value.target.Unavailable?
  }

  /** The ring shows, or its change since the last wakeup will wake the loop. */
  ghost predicate WillHear(w: World) {
    R.Showing(w.ring.ring) || Generation(w) != w.seen
  }

  ghost predicate Inv(w: World) {
    && R.Inv(w.ring) && w.seen <= Generation(w) && LatestIsKnown(w)
    && (w.held.Some? && !w.pc.Woken? ==> WillHear(w))
    && (w.pc.Deciding? && w.pc.overRing ==> w.pc.context.target.Unavailable? && WillHear(w))
  }

  /** Whether a ring shows can be read off its published invocation. */
  lemma ShowingIsPublished(w: R.World)
    requires R.Inv(w)
    ensures R.Showing(w.ring) <==> R.Shown(w.ring).Some? && R.Shown(w.ring).value.slots != map[]
  {
    if w.ring.active.Some? {
      var s := w.ring.active.value;
      var layout := w.history[s.invocation.session].spec.layout;
      assert s.actions == R.Actions(layout) && s.invocation.slots == R.Slots(layout);
      assert R.Actions(layout).Keys == layout.Keys && R.Slots(layout).Keys == layout.Keys;
      assert s.actions == map[] <==> layout.Keys == {};
    }
  }

  lemma RingKeepsHearing(w: World, c: R.Event)
    requires R.Inv(w.ring) && R.Enabled(w.ring, c) && w.seen <= Generation(w)
    ensures var w' := w.(ring := R.Step(w.ring, c));
            R.Inv(w'.ring) && w.seen <= Generation(w') && (WillHear(w) ==> WillHear(w'))
  {
    R.StepKeeps(w.ring, c);
    R.GenerationCountsChanges(w.ring, c);
    ShowingIsPublished(w.ring);
    ShowingIsPublished(R.Step(w.ring, c));
  }

  lemma StepKeeps(w: World, e: Event)
    requires Inv(w) && Enabled(w, e)
    ensures Inv(Step(w, e))
  {
    match e
    case RingCommand(c) => RingKeepsHearing(w, c);
    case Pointer(_, now) => RingKeepsHearing(w, R.Asking(now));
    case Check(now) => RingKeepsHearing(w, R.Asking(now));
    case _ =>
  }

  predicate Possible(w: World, es: seq<Event>)
    decreases |es|
  {
    es == [] || (Enabled(w, es[0]) && Possible(Step(w, es[0]), es[1..]))
  }

  function Run(w: World, es: seq<Event>): World
    requires Possible(w, es)
    decreases |es|
  {
    if es == [] then w else Run(Step(w, es[0]), es[1..])
  }

  lemma {:induction false} InvAlongRun(w: World, es: seq<Event>)
    requires Inv(w) && Possible(w, es)
    ensures Inv(Run(w, es))
    decreases |es|
  {
    if es != [] {
      StepKeeps(w, es[0]);
      InvAlongRun(Step(w, es[0]), es[1..]);
    }
  }

  /** Over every run, the latest context is applied, or it is unidentified and held. */
  lemma LatestAppliedOrHeld(es: seq<Event>)
    requires Possible(START, es)
    ensures LatestIsKnown(Run(START, es))
  {
    InvAlongRun(START, es);
  }

  /** No wakeup is lost: a held context whose ring closed has a wakeup waiting, and taking it applies the context. */
  lemma HeldContextIsApplied(es: seq<Event>, now: nat)
    requires Possible(START, es)
    requires var w := Run(START, es); w.held.Some? && w.pc.Idle? && !R.Showing(w.ring.ring)
    ensures var w := Run(START, es);
            && Enabled(w, Wake) && Enabled(Step(w, Wake), Check(now))
            && var w' := Step(Step(w, Wake), Check(now));
               w'.held.None? && w'.applied == w.latest == w'.latest
  {
    InvAlongRun(START, es);
    R.FreshFacts(Run(START, es).ring.ring, now);
  }

  /** Whatever is applied is the latest context at that moment: a superseded one never comes back. */
  lemma OnlyTheLatestIsApplied(es: seq<Event>, e: Event)
    requires Possible(START, es) && Enabled(Run(START, es), e)
    ensures var w, w' := Run(START, es), Step(Run(START, es), e);
            w'.applied != w.applied ==> w'.applied == w'.latest && w'.held.None?
  {
    InvAlongRun(START, es);
  }

  /**
    The ring keeps the profile that opened it: an unidentified context is held back exactly when the active session
    was opened at most `SESSION_LIFETIME` ago on a layout with some slot filled, whatever happens to the ring
    before the loop decides. Every other context is applied at once and drops what was held.
  */
  lemma RingHoldsBack(es: seq<Event>, context: Context, now: nat, later: R.World)
    requires Possible(START, es) && Run(START, es).pc.Idle?
    ensures var w := Run(START, es);
            var asked := Step(w, Pointer(context, now));
            var decided := Step(asked.(ring := later), Decide);
            if context.target == Unavailable && UnderRing(w.ring, now)
            then decided.applied == w.applied && decided.held == Some(context)
            else decided.applied == Some(context) && decided.held.None?
  {
    InvAlongRun(START, es);
    var ring := Run(START, es).ring;
    R.FreshFacts(ring.ring, now);
    R.LiveIsActive(ring, now);
  }

  /** The active session was opened on a layout with a filled slot and is within its lifetime. */
  ghost predicate UnderRing(ring: R.World, now: nat) {
    && ring.ring.active.Some?
    && var id := ring.ring.active.value.invocation.session;
       && id in ring.history && ring.history[id].spec.layout.Keys != {}
       && now <= ring.history[id].at + R.SESSION_LIFETIME
  }

  /** A lost watcher leaves the unidentified context applied and nothing held. */
  lemma LostIsUnidentified(es: seq<Event>)
    requires Possible(START, es) && Run(START, es).pc.Idle?
    ensures var lost := Step(Run(START, es), PointerLost);
            lost.applied == Some(Context(None, Unavailable)) && lost.held.None?
  {}

  /** The part of the running agent that follows the pointer. `world` is its place in a run. */
  class Lifecycle {
    const ring: R.ActionRingManager
    var heldPointer: Option<Context>
    var applied: Option<Context>
    ghost var world: World

    ghost predicate Valid() reads this, ring {
      world.ring.ring == ring.Model() && world.held == heldPointer && world.applied == applied && LatestIsKnown(world)
    }

    constructor (ring: R.ActionRingManager)
      requires ring.Model() == R.INITIAL
      ensures Valid() && this.ring == ring && world == START
    {
      this.ring := ring;
      heldPointer, applied, world := None, None, START;
    }

    method ApplyPointerContext(context: Context)
      requires Valid()
      modifies this
      ensures Valid() && world == Apply(old(world), context)
    {
      heldPointer := None;
      applied := Some(context);
      world := Apply(world, context);
    }

    /** A pointer event, taken with no ring command between the question and the decision. */
    method OnPointer(context: Context, now: nat)
      requires Valid() && world.pc.Idle?
      modifies this, ring
      ensures Valid() && world == Step(Step(old(world), Pointer(context, now)), Decide)
    {
      var overRing := false;
      if context.target.Unavailable? {
        overRing := ring.IsShowing(now);
      }
      world := Step(world, Pointer(context, now));
      if overRing {
        heldPointer := Some(context);
        world := Step(world, Decide);
      } else {
        ApplyPointerContext(context);
      }
    }

    method OnPointerLost()
      requires Valid() && world.pc.Idle?
      modifies this
      ensures Valid() && world == Step(old(world), PointerLost)
    {
      ApplyPointerContext(UNIDENTIFIED);
    }

    method ApplyHeldPointer(now: nat)
      requires Valid() && world.pc.Woken?
      modifies this, ring
      ensures Valid() && world == Step(old(world), Check(now))
    {
      ghost var checked := Step(world, Check(now));
      if heldPointer.Some? {
        var showing := ring.IsShowing(now);
        world := world.(ring := checked.ring);
        if !showing {
          ApplyPointerContext(heldPointer.value);
        }
      }
      world := checked;
    }

    /** The ring changed: the loop wakes and looks again. */
    method OnRingChanged(now: nat)
      requires Valid() && Enabled(world, Wake)
      modifies this, ring
      ensures Valid() && world == Step(Step(old(world), Wake), Check(now))
    {
      world := Step(world, Wake);
      ApplyHeldPointer(now);
    }
  }
}
