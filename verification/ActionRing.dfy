/**
  The Actions Ring session machine (action_ring.rs): one active session, its published observation, and
  the commands that hover, choose, release and close it. Times are milliseconds.
*/
module ActionRing {
  import opened Basics

  type Slot = nat
  type SessionId = nat
  type Time = nat

  const SESSION_LIFETIME: Time := 15_000 + 3_000
  const HOLD_TO_CHOOSE: Time := 250

  datatype Action = Action(id: string, title: string, icon: string)
  datatype Entry = Entry(action: Action, customIcon: Option<string>, customLabel: Option<string>)
  datatype Presentation = Presentation(text: string, literal: bool, icon: string)

  datatype Spec = Spec(deviceKey: string, haptic: Option<DeviceRoute>, layout: map<Slot, Entry>,
                       language: Option<string>, size: nat)
  datatype Invocation = Invocation(session: SessionId, slots: map<Slot, Presentation>,
                                   language: Option<string>, size: nat)

  datatype Session = Session(
    invocation: Invocation, deviceKey: string, haptic: Option<DeviceRoute>, actions: map<Slot, Action>,
    hovered: Option<Slot>, triggerHeld: bool, openedAt: Time)

  datatype Observation = Observation(generation: nat, invocation: Option<Invocation>)

  /** `next` is the session counter, taken before the lock that opens the session. */
  datatype Ring = Ring(next: SessionId, active: Option<Session>, published: Observation)

  const INITIAL := Ring(1, None, Observation(1, None))

  datatype Activation = Activation(deviceKey: string, action: Action, haptic: Option<DeviceRoute>)
  datatype CommandError = SessionNotFound | SlotEmpty
  datatype Release = Kept | Cancelled(session: SessionId) | Activated(session: SessionId, activation: Activation)
  datatype Result<T> = Ok(value: T) | Err(error: CommandError)

  /** `Instant::elapsed` saturates at zero. */
  function Elapsed(since: Time, now: Time): Time { if now < since then 0 else now - since }

  function Present(e: Entry): Presentation {
    Presentation(if e.customLabel.Some? then e.customLabel.value else e.action.title,
                 e.customLabel.Some?,
                 if e.customIcon.Some? then e.customIcon.value else e.action.icon)
  }

  function Actions(layout: map<Slot, Entry>): map<Slot, Action> { map s | s in layout :: layout[s].action }
  function Slots(layout: map<Slot, Entry>): map<Slot, Presentation> { map s | s in layout :: Present(layout[s]) }

  function Open(id: SessionId, spec: Spec, now: Time): Session {
    Session(Invocation(id, Slots(spec.layout), spec.language, spec.size), spec.deviceKey, spec.haptic,
            Actions(spec.layout), None, true, now)
  }

  // --- The operations, on values ----------------------------------------------------------

  function Shown(r: Ring): Option<Invocation> {
    if r.active.Some? then Some(r.active.value.invocation) else None
  }

  function Publish(r: Ring): Ring {
    if r.published.invocation == Shown(r) then r
    else r.(published := Observation(r.published.generation + 1, Shown(r)))
  }

  function Expire(r: Ring, now: Time): Ring {
    if r.active.Some? && Elapsed(r.active.value.openedAt, now) > SESSION_LIFETIME then r.(active := None) else r
  }

  function Fresh(r: Ring, now: Time): Ring { Publish(Expire(r, now)) }

  predicate Showing(r: Ring) { r.active.Some? && r.active.value.actions != map[] }

  predicate Names(r: Ring, id: SessionId) { r.active.Some? && r.active.value.invocation.session == id }

  function Close(r: Ring): Ring { Publish(r.(active := None)) }

  function Reserve(r: Ring): Ring { r.(next := r.next + 1) }

  function Begin(r: Ring, id: SessionId, spec: Spec, now: Time): Ring {
    Publish(r.(active := Some(Open(id, spec, now))))
  }

  function DismissResult(r: Ring, now: Time): Option<SessionId> {
    var r1 := Fresh(r, now);
    if Showing(r1) then Some(r1.active.value.invocation.session) else None
  }

  function Dismiss(r: Ring, now: Time): Ring {
    var r1 := Fresh(r, now);
    if Showing(r1) then Close(r1) else Publish(r1)
  }

  function SetHovered(r: Ring, slot: Option<Slot>): Ring
    requires r.active.Some?
  {
    r.(active := Some(r.active.value.(hovered := slot)))
  }

  function Hover(r: Ring, id: SessionId, slot: Slot, now: Time): Ring {
    var r1 := Fresh(r, now);
    if Names(r1, id) && slot in r1.active.value.actions then SetHovered(r1, Some(slot)) else r1
  }

  function Unhover(r: Ring, id: SessionId, now: Time): Ring {
    var r1 := Fresh(r, now);
    if Names(r1, id) then SetHovered(r1, None) else r1
  }

  function Chosen(s: Session, slot: Slot): Activation
    requires slot in s.actions
  {
    Activation(s.deviceKey, s.actions[slot], s.haptic)
  }

  /** `Ok(Some(route))` for a new highlight, with the route its feedback takes; `Ok(None)` for a repeated one. */
  function HoverResult(r: Ring, id: SessionId, slot: Slot, now: Time): Result<Option<Option<DeviceRoute>>> {
    var r1 := Fresh(r, now);
    if !Names(r1, id) then Err(SessionNotFound)
    else if slot !in r1.active.value.actions then Err(SlotEmpty)
    else if r1.active.value.hovered == Some(slot) then Ok(None)
    else Ok(Some(r1.active.value.haptic))
  }

  function Activate(r: Ring, id: SessionId, slot: Slot, now: Time): Ring {
    var r1 := Fresh(r, now);
    if Names(r1, id) && slot in r1.active.value.actions then Close(r1) else r1
  }

  function ActivateResult(r: Ring, id: SessionId, slot: Slot, now: Time): Result<Activation> {
    var r1 := Fresh(r, now);
    if !Names(r1, id) then Err(SessionNotFound)
    else if slot !in r1.active.value.actions then Err(SlotEmpty)
    else Ok(Chosen(r1.active.value, slot))
  }

  function LetGo(r: Ring, now: Time): Ring {
    var r1 := Fresh(r, now);
    if r1.active.None? || !r1.active.value.triggerHeld then r1
    else if Elapsed(r1.active.value.openedAt, now) < HOLD_TO_CHOOSE then
      r1.(active := Some(r1.active.value.(triggerHeld := false)))
    else Close(r1)
  }

  function LetGoResult(r: Ring, now: Time): Release {
    var r1 := Fresh(r, now);
    if r1.active.None? || !r1.active.value.triggerHeld || Elapsed(r1.active.value.openedAt, now) < HOLD_TO_CHOOSE
    then Kept
    else
      var s := r1.active.value;
      if s.hovered.Some? && s.hovered.value in s.actions
      then Activated(s.invocation.session, Chosen(s, s.hovered.value))
      else Cancelled(s.invocation.session)
  }

  function Cancel(r: Ring, id: SessionId): Ring {
    if Names(r, id) then Close(r) else Publish(r)
  }

  // --- Runs ---------------------------------------------------------------------------------

  datatype Event =
    | Reserving
    | Beginning(id: SessionId, spec: Spec, now: Time)
    | Dismissing(now: Time)
    | Asking(now: Time)
    | Hovering(id: SessionId, slot: Slot, now: Time)
    | Unhovering(id: SessionId, now: Time)
    | Activating(id: SessionId, slot: Slot, now: Time)
    | Releasing(now: Time)
    | Cancelling(id: SessionId)

  datatype How = ByCommand | ByRelease
  datatype Ran = Ran(session: SessionId, slot: Slot, activation: Activation, at: Time, how: How)
  datatype Opening = Opening(spec: Spec, at: Time)

  /**
    The ring with its history: ids taken by `begin` calls that have not opened their session yet, the
    sessions opened, those a trigger release has reached, and the activations handed out.
  */
  datatype World = World(ring: Ring, reserved: set<SessionId>, history: map<SessionId, Opening>,
                         released: set<SessionId>, ran: seq<Ran>)

  const START := World(INITIAL, {}, map[], {}, [])

  predicate Enabled(w: World, e: Event) {
    e.Beginning? ==> e.id in w.reserved
  }

  function RingStep(r: Ring, e: Event): Ring {
    match e
    case Reserving => Reserve(r)
    case Beginning(id, spec, now) => Begin(r, id, spec, now)
    case Dismissing(now) => Dismiss(r, now)
    case Asking(now) => Fresh(r, now)
    case Hovering(id, slot, now) => Hover(r, id, slot, now)
    case Unhovering(id, now) => Unhover(r, id, now)
    case Activating(id, slot, now) => Activate(r, id, slot, now)
    case Releasing(now) => LetGo(r, now)
    case Cancelling(id) => Cancel(r, id)
  }

  function Step(w: World, e: Event): World {
    var w' := w.(ring := RingStep(w.ring, e));
    match e
    case Reserving => w'.(reserved := w.reserved + {w.ring.next})
    case Beginning(id, spec, now) =>
      w'.(reserved := w.reserved - {id}, history := w.history[id := Opening(spec, now)])
    case Activating(id, slot, now) =>
      (match ActivateResult(w.ring, id, slot, now)
       case Ok(a) => w'.(ran := w.ran + [Ran(id, slot, a, now, ByCommand)])
       case Err(_) => w')
    case Releasing(now) =>
      var r1 := Fresh(w.ring, now);
      var reached := if r1.active.Some? then w'.(released := w.released + {r1.active.value.invocation.session}) else w';
      (match LetGoResult(w.ring, now)
       case Activated(id, a) => reached.(ran := w.ran + [Ran(id, r1.active.value.hovered.value, a, now, ByRelease)])
       case _ => reached)
    case _ => w'
  }

  /** An activation the design allows: a slot of the snapshot taken at `begin`, within the lifetime. */
  ghost predicate Allowed(w: World, x: Ran) {
    && x.session in w.history
    && var o := w.history[x.session];
       && x.slot in o.spec.layout
       && x.activation == Activation(o.spec.deviceKey, o.spec.layout[x.slot].action, o.spec.haptic)
       && Elapsed(o.at, x.at) <= SESSION_LIFETIME
       && (x.how.ByRelease? ==> Elapsed(o.at, x.at) >= HOLD_TO_CHOOSE)
  }

  ghost predicate IdsUnused(w: World) {
    && (forall id :: id in w.reserved ==> id < w.ring.next && id !in w.history)
    && (forall id :: id in w.history ==> id < w.ring.next)
    && (forall id :: id in w.released ==> id in w.history)
  }

  /** The active session is the one its `begin` opened, apart from its highlight and its trigger, and ran nothing. */
  ghost predicate ActiveIsOpened(w: World) {
    w.ring.active.Some? ==>
      var s := w.ring.active.value;
      var id := s.invocation.session;
      && id in w.history
      && s == Open(id, w.history[id].spec, w.history[id].at).(hovered := s.hovered, triggerHeld := s.triggerHeld)
      && (s.hovered.Some? ==> s.hovered.value in s.actions)
      && (s.triggerHeld <==> id !in w.released)
      && (forall i :: 0 <= i < |w.ran| ==> w.ran[i].session != id)
  }

  ghost predicate RanOnce(w: World) {
    && (forall i :: 0 <= i < |w.ran| ==> Allowed(w, w.ran[i]))
    && (forall i, j :: 0 <= i < j < |w.ran| ==> w.ran[i].session != w.ran[j].session)
  }

  ghost predicate Inv(w: World) {
    w.ring.published.invocation == Shown(w.ring) && IdsUnused(w) && ActiveIsOpened(w) && RanOnce(w)
  }

  lemma FreshFacts(r: Ring, now: Time)
    requires r.published.invocation == Shown(r)
    ensures var r1 := Fresh(r, now);
            && r1.published.invocation == Shown(r1) && r1.next == r.next
            && (r1.active.Some? ==> r1 == r && Elapsed(r.active.value.openedAt, now) <= SESSION_LIFETIME)
  {}

  /** A ring shows exactly while the active session, opened on a layout with a filled slot, is within its lifetime. */
  lemma LiveIsActive(w: World, now: Time)
    requires Inv(w)
    ensures Showing(Fresh(w.ring, now)) <==>
            && w.ring.active.Some?
            && var o := w.history[w.ring.active.value.invocation.session];
               o.spec.layout.Keys != {} && now <= o.at + SESSION_LIFETIME
  {
    FreshFacts(w.ring, now);
    if w.ring.active.Some? {
      var s := w.ring.active.value;
      var layout := w.history[s.invocation.session].spec.layout;
      assert s.actions == Actions(layout) && Actions(layout).Keys == layout.Keys;
      assert s.actions == map[] <==> layout.Keys == {};
    }
  }

  lemma ReserveKeeps(w: World)
    requires Inv(w)
    ensures Inv(Step(w, Reserving))
  {
    assert forall x :: Allowed(Step(w, Reserving), x) == Allowed(w, x);
  }

  lemma BeginKeeps(w: World, id: SessionId, spec: Spec, now: Time)
    requires Inv(w) && id in w.reserved
    ensures Inv(Step(w, Beginning(id, spec, now)))
  {
    var w' := Step(w, Beginning(id, spec, now));
    assert forall i :: 0 <= i < |w.ran| ==> Allowed(w, w.ran[i]) && Allowed(w', w.ran[i]);
  }

  /** Commands that run no action: they close the session, or change its highlight. */
  lemma QuietKeeps(w: World, e: Event)
    requires Inv(w)
    requires e.Dismissing? || e.Asking? || e.Hovering? || e.Unhovering? || e.Cancelling?
    ensures Inv(Step(w, e))
  {
    if !e.Cancelling? {
      FreshFacts(w.ring, e.now);
    }
    var w' := Step(w, e);
    assert forall x :: Allowed(w', x) == Allowed(w, x);
  }

  /** Handing out an activation of the active session closes it. */
  lemma RunKeeps(w: World, w': World, x: Ran)
    requires Inv(w) && w.ring.active.Some? && w.ring.active.value.invocation.session == x.session
    requires Allowed(w, x)
    requires w'.ring == Close(w.ring) && w'.reserved == w.reserved && w'.history == w.history
    requires w'.released <= w.released + {x.session} && w'.ran == w.ran + [x]
    ensures Inv(w')
  {
    assert forall y :: Allowed(w', y) == Allowed(w, y);
  }

  lemma ActivateKeeps(w: World, id: SessionId, slot: Slot, now: Time)
    requires Inv(w)
    ensures Inv(Step(w, Activating(id, slot, now)))
  {
    FreshFacts(w.ring, now);
    var w' := Step(w, Activating(id, slot, now));
    match ActivateResult(w.ring, id, slot, now)
    case Ok(a) => RunKeeps(w, w', Ran(id, slot, a, now, ByCommand));
    case Err(_) => assert forall x :: Allowed(w', x) == Allowed(w, x);
  }

  lemma ReleaseKeeps(w: World, now: Time)
    requires Inv(w)
    ensures Inv(Step(w, Releasing(now)))
  {
    FreshFacts(w.ring, now);
    var w' := Step(w, Releasing(now));
    match LetGoResult(w.ring, now)
    case Activated(id, a) => RunKeeps(w, w', Ran(id, w.ring.active.value.hovered.value, a, now, ByRelease));
    case _ => assert forall x :: Allowed(w', x) == Allowed(w, x);
  }

  lemma StepKeeps(w: World, e: Event)
    requires Inv(w) && Enabled(w, e)
    ensures Inv(Step(w, e))
  {
    match e
    case Reserving => ReserveKeeps(w);
    case Beginning(id, spec, now) => BeginKeeps(w, id, spec, now);
    case Activating(id, slot, now) => ActivateKeeps(w, id, slot, now);
    case Releasing(now) => ReleaseKeeps(w, now);
    case _ => QuietKeeps(w, e);
  }

  function Run(w: World, es: seq<Event>): World
    decreases |es|
  {
    if es == [] then w else Run(Step(w, es[0]), es[1..])
  }

  predicate Possible(w: World, es: seq<Event>)
    decreases |es|
  {
    es == [] || (Enabled(w, es[0]) && Possible(Step(w, es[0]), es[1..]))
  }

  lemma {:induction false} InvAlongRun(w: World, es: seq<Event>)
    requires Inv(w) && Possible(w, es)
    ensures Inv(Run(w, es))
    decreases |es|
  {
    if es != [] {
      StepKeeps(w, es[0]);
      InvAlongRun(Step(w, es[0]), es[1..]);
    }
  }

  /** Each session yields at most one activation, and only an allowed one. */
  lemma AtMostOneActivation(es: seq<Event>)
    requires Possible(START, es)
    ensures var w := Run(START, es);
            && (forall i, j :: 0 <= i < j < |w.ran| ==> w.ran[i].session != w.ran[j].session)
            && (forall i :: 0 <= i < |w.ran| ==> Allowed(w, w.ran[i]))
            && (w.ring.active.Some? && w.ring.active.value.hovered.Some? ==>
                  w.ring.active.value.hovered.value in w.ring.active.value.actions)
  {
    InvAlongRun(START, es);
  }

  /** Only the first release that reaches a session can choose, and only once it was held long enough. */
  lemma OnlyFirstReleaseChooses(es: seq<Event>, now: Time)
    requires Possible(START, es)
    ensures var w := Run(START, es);
            !LetGoResult(w.ring, now).Kept? ==>
              && w.ring.active.Some? && w.ring.active.value.invocation.session !in w.released
              && HOLD_TO_CHOOSE <= Elapsed(w.ring.active.value.openedAt, now) <= SESSION_LIFETIME
  {
    InvAlongRun(START, es);
    FreshFacts(Run(START, es).ring, now);
  }

  /** The slot the events of a run leave highlighted in session `id`, whose filled slots are `filled`. */
  function Highlight(es: seq<Event>, id: SessionId, filled: set<Slot>): Option<Slot>
    decreases |es|
  {
    if es == [] then None else
    var init := es[..|es| - 1];
    match es[|es| - 1]
    case Hovering(s, slot, _) => if s == id && slot in filled then Some(slot) else Highlight(init, id, filled)
    case Unhovering(s, _) => if s == id then None else Highlight(init, id, filled)
    case Beginning(s, _, _) => if s == id then None else Highlight(init, id, filled)
    case _ => Highlight(init, id, filled)
  }

  /** A session that is active after a step just began, or was active before with its highlight moved by the step. */
  lemma HighlightMoves(w: World, e: Event)
    requires Inv(w) && Enabled(w, e) && Step(w, e).ring.active.Some?
    ensures var s' := Step(w, e).ring.active.value;
            var id := s'.invocation.session;
            if e.Beginning? then id == e.id && s'.hovered.None?
            else
              && Names(w.ring, id) && s'.actions == w.ring.active.value.actions
              && s'.hovered == if e.Hovering? && e.id == id && e.slot in s'.actions then Some(e.slot)
                               else if e.Unhovering? && e.id == id then None
                               else w.ring.active.value.hovered
  {
    if !e.Reserving? && !e.Beginning? && !e.Cancelling? {
      FreshFacts(w.ring, e.now);
    }
  }

  /** The highlight of the active session is the one its own hover reports left. */
  lemma {:induction false} HighlightFollowsTheReports(es: seq<Event>)
    requires Possible(START, es) && Run(START, es).ring.active.Some?
    ensures var s := Run(START, es).ring.active.value;
            s.hovered == Highlight(es, s.invocation.session, s.actions.Keys)
    decreases |es|
  {
    if es != [] {
      var init, e := es[..|es| - 1], es[|es| - 1];
      assert es == init + [e];
      RunJoins(START, init, [e]);
      InvAlongRun(START, init);
      HighlightMoves(Run(START, init), e);
      if !e.Beginning? {
        HighlightFollowsTheReports(init);
      }
    }
  }

  /** A release that counts runs the highlighted slot of the layout opened at `begin`, and cancels only without one. */
  lemma ReleaseRunsTheHighlight(es: seq<Event>, now: Time)
    requires Possible(START, es) && Run(START, es).ring.active.Some?
    ensures var w := Run(START, es);
            var id := w.ring.active.value.invocation.session;
            && id in w.history
            && var spec := w.history[id].spec;
               var slot := Highlight(es, id, spec.layout.Keys);
               match LetGoResult(w.ring, now)
               case Kept => true
               case Activated(s, a) =>
                 s == id && slot.Some? && slot.value in spec.layout
                 && a == Activation(spec.deviceKey, spec.layout[slot.value].action, spec.haptic)
               case Cancelled(s) => s == id && slot.None?
  {
    InvAlongRun(START, es);
    HighlightFollowsTheReports(es);
    FreshFacts(Run(START, es).ring, now);
    var s := Run(START, es).ring.active.value;
    assert s.actions.Keys == Run(START, es).history[s.invocation.session].spec.layout.Keys;
  }

  /** No session id is used twice, even when `begin` calls overlap. */
  lemma SessionIdsAreFresh(es: seq<Event>, id: SessionId)
    requires Possible(START, es) && id in Run(START, es).reserved
    ensures id !in Run(START, es).history && !Names(Run(START, es).ring, id)
  {
    InvAlongRun(START, es);
  }

  /** The generation rises by one exactly when what is shown changes. */
  lemma GenerationCountsChanges(w: World, e: Event)
    requires Inv(w) && Enabled(w, e)
    ensures var r, r' := w.ring, Step(w, e).ring;
            r'.published == if Shown(r') == Shown(r) then r.published
                            else Observation(r.published.generation + 1, Shown(r'))
  {
    if !e.Reserving? && !e.Beginning? && !e.Cancelling? {
      FreshFacts(w.ring, e.now);
    }
  }

  lemma {:induction false} GenerationsOnlyRise(w: World, es: seq<Event>)
    requires Inv(w) && Possible(w, es)
    ensures var p, p' := w.ring.published, Run(w, es).ring.published;
            p.generation <= p'.generation && (p.generation == p'.generation ==> p == p')
    decreases |es|
  {
    if es != [] {
      GenerationCountsChanges(w, es[0]);
      StepKeeps(w, es[0]);
      GenerationsOnlyRise(Step(w, es[0]), es[1..]);
    }
  }

  lemma {:induction false} RunJoins(w: World, es: seq<Event>, fs: seq<Event>)
    requires Possible(w, es + fs)
    ensures Possible(w, es) && Possible(Run(w, es), fs) && Run(w, es + fs) == Run(Run(w, es), fs)
    decreases |es|
  {
    if es == [] {
      assert es + fs == fs;
    } else {
      assert (es + fs)[1..] == es[1..] + fs;
      RunJoins(Step(w, es[0]), es[1..], fs);
    }
  }

  /** At any two moments of a run, equal generations mean equal observations. */
  lemma EqualGenerationsEqualObservations(es: seq<Event>, i: nat, j: nat)
    requires Possible(START, es) && i <= j <= |es|
    ensures var p, q := Run(START, es[..i]).ring.published, Run(START, es[..j]).ring.published;
            p.generation == q.generation ==> p == q
  {
    assert es == es[..j] + es[j..] && es[..j] == es[..i] + es[i..j];
    RunJoins(START, es[..j], es[j..]);
    RunJoins(START, es[..i], es[i..j]);
    InvAlongRun(START, es[..i]);
    GenerationsOnlyRise(Run(START, es[..i]), es[i..j]);
  }

  /** A command that names another session changes nothing but expiry. */
  lemma OtherSessionsAreLeftAlone(r: Ring, id: SessionId, slot: Slot, now: Time)
    requires r.published.invocation == Shown(r) && !Names(r, id)
    ensures Hover(r, id, slot, now) == Unhover(r, id, now) == Activate(r, id, slot, now) == Fresh(r, now)
    ensures ActivateResult(r, id, slot, now) == Err(SessionNotFound)
    ensures Cancel(r, id) == r
  {
    FreshFacts(r, now);
  }

  // --- The object -------------------------------------------------------------------------------

  class ActionRingManager {
    var next: SessionId
    var active: Option<Session>
    var published: Observation

    ghost function Model(): Ring reads this { Ring(next, active, published) }

    constructor ()
      ensures Model() == INITIAL
    {
      next, active, published := 1, None, Observation(1, None);
    }

    method Republish()
      modifies this`published
      ensures Model() == Publish(old(Model()))
    {
      var invocation := if active.Some? then Some(active.value.invocation) else None;
      if published.invocation != invocation {
        published := Observation(published.generation + 1, invocation);
      }
    }

    method ExpireAndPublish(now: Time)
      modifies this
      ensures Model() == Fresh(old(Model()), now)
    {
      if active.Some? && Elapsed(active.value.openedAt, now) > SESSION_LIFETIME {
        active := None;
      }
      Republish();
    }

    method ReserveId() returns (id: SessionId)
      modifies this`next
      ensures id == old(next) && Model() == Reserve(old(Model()))
    {
      id := next;
      next := next + 1;
    }

    method BeginSession(id: SessionId, spec: Spec, now: Time) returns (invocation: Invocation)
      modifies this
      ensures Model() == Begin(old(Model()), id, spec, now)
      ensures invocation == Open(id, spec, now).invocation
    {
      var actions: map<Slot, Action> := map[];
      var slots: map<Slot, Presentation> := map[];
      var todo := spec.layout.Keys;
      while todo != {}
        invariant todo <= spec.layout.Keys
        invariant actions == map s | s in spec.layout.Keys - todo :: spec.layout[s].action
        invariant slots == map s | s in spec.layout.Keys - todo :: Present(spec.layout[s])
        decreases |todo|
      {
        var slot :| slot in todo;
        var entry := spec.layout[slot];
        slots := slots[slot := Present(entry)];
        actions := actions[slot := entry.action];
        todo := todo - {slot};
      }
      assert actions == Actions(spec.layout) && slots == Slots(spec.layout);
      invocation := Invocation(id, slots, spec.language, spec.size);
      active := Some(Session(invocation, spec.deviceKey, spec.haptic, actions, None, true, now));
      Republish();
    }

    method DismissActive(now: Time) returns (dismissed: Option<SessionId>)
      modifies this
      ensures Model() == Dismiss(old(Model()), now)
      ensures dismissed == DismissResult(old(Model()), now)
    {
      ExpireAndPublish(now);
      dismissed := None;
      if active.Some? && active.value.actions != map[] {
        dismissed := Some(active.value.invocation.session);
        active := None;
      }
      Republish();
    }

    method IsShowing(now: Time) returns (showing: bool)
      modifies this
      ensures Model() == Fresh(old(Model()), now) && showing == Showing(Model())
    {
      ExpireAndPublish(now);
      showing := active.Some? && active.value.actions != map[];
    }

    method HoverSlot(id: SessionId, slot: Slot, now: Time) returns (r: Result<Option<Option<DeviceRoute>>>)
      modifies this
      ensures Model() == Hover(old(Model()), id, slot, now)
      ensures r == HoverResult(old(Model()), id, slot, now)
    {
      ExpireAndPublish(now);
      if active.None? || active.value.invocation.session != id {
        return Err(SessionNotFound);
      }
      if slot !in active.value.actions {
        return Err(SlotEmpty);
      }
      if active.value.hovered == Some(slot) {
        return Ok(None);
      }
      active := Some(active.value.(hovered := Some(slot)));
      return Ok(Some(active.value.haptic));
    }

    method UnhoverSlots(id: SessionId, now: Time) returns (found: bool)
      modifies this
      ensures Model() == Unhover(old(Model()), id, now)
      ensures found == Names(Fresh(old(Model()), now), id)
    {
      ExpireAndPublish(now);
      if active.None? || active.value.invocation.session != id {
        return false;
      }
      active := Some(active.value.(hovered := None));
      return true;
    }

    method ActivateSlot(id: SessionId, slot: Slot, now: Time) returns (r: Result<Activation>)
      modifies this
      ensures Model() == Activate(old(Model()), id, slot, now)
      ensures r == ActivateResult(old(Model()), id, slot, now)
    {
      ExpireAndPublish(now);
      if active.None? || active.value.invocation.session != id {
        return Err(SessionNotFound);
      }
      if slot !in active.value.actions {
        return Err(SlotEmpty);
      }
      var session := active.value;
      active := None;
      Republish();
      return Ok(Activation(session.deviceKey, session.actions[slot], session.haptic));
    }

    method ReleaseTrigger(now: Time) returns (r: Release)
      modifies this
      ensures Model() == LetGo(old(Model()), now)
      ensures r == LetGoResult(old(Model()), now)
    {
      ExpireAndPublish(now);
      if active.None? || !active.value.triggerHeld {
        return Kept;
      }
      active := Some(active.value.(triggerHeld := false));
      if Elapsed(active.value.openedAt, now) < HOLD_TO_CHOOSE {
        return Kept;
      }
      var session := active.value;
      active := None;
      Republish();
      if session.hovered.Some? && session.hovered.value in session.actions {
        return Activated(session.invocation.session,
                         Activation(session.deviceKey, session.actions[session.hovered.value], session.haptic));
      }
      return Cancelled(session.invocation.session);
    }

    method CancelSession(id: SessionId)
      modifies this
      ensures Model() == Cancel(old(Model()), id)
    {
      if active.Some? && active.value.invocation.session == id {
        active := None;
      }
      Republish();
    }
  }
}
