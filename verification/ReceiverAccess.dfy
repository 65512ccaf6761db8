/**
  Receiver leases (receiver_access.rs): shared leases for sessions and bounded I/O, an exclusive lease
  for pairing and host transitions, and the announced requests that make sessions stand aside.

  A run interleaves the steps of any number of tasks. Assumed of the read-write lock: a read guard is
  granted only while nobody writes, a write guard only while nobody holds it at all. `now` counts steps.
*/
module ReceiverAccess {
  import opened Basics

  datatype Reason = Pairing | HostTransition

  /** The announced counts. A count below zero would be an underflow. */
  datatype Requests = Requests(pairing: int, hostTransition: int) {
    function Of(reason: Reason): int { if reason.Pairing? then pairing else hostTransition }
    predicate Any() { pairing != 0 || hostTransition != 0 }
    function Begin(reason: Reason): Requests {
      if reason.Pairing? then this.(pairing := pairing + 1) else this.(hostTransition := hostTransition + 1)
    }
    function Drop(reason: Reason): Requests {
      if reason.Pairing? then this.(pairing := pairing - 1) else this.(hostTransition := hostTransition - 1)
    }
  }

  type Task = nat

  datatype Phase =
    | Checked                               // a session that saw no request, before it tries the lock
    | Guarded                               // it holds the read guard, before its second look
    | SessionLease(since: nat)
    | IoLease
    | Requesting(reason: Reason, since: nat)  // announced, waiting for the write guard
    | Exclusive(reason: Reason, since: nat)
    | Withdrawing(reason: Reason, since: nat) // the write guard is dropped, the request not yet

  datatype World = World(now: nat, requests: Requests, readers: set<Task>, writer: Option<Task>, tasks: map<Task, Phase>)

  const START := World(0, Requests(0, 0), {}, None, map[])

  datatype Event =
    | FirstCheck(t: Task)
    | TryRead(t: Task, granted: bool)
    | SecondCheck(t: Task)
    | AcquireForIo(t: Task)
    | Announce(t: Task, reason: Reason)
    | AcquireExclusive(t: Task)
    | CancelWait(t: Task)
    | DropLease(t: Task)
    | DropRequest(t: Task)

  predicate Announced(p: Phase) { p.Requesting? || p.Exclusive? || p.Withdrawing? }
  predicate Reads(p: Phase) { p.Guarded? || p.SessionLease? || p.IoLease? }

  predicate Enabled(w: World, e: Event) {
    match e
    case FirstCheck(t) => t !in w.tasks
    case TryRead(t, granted) => t in w.tasks && w.tasks[t].Checked? && (granted ==> w.writer.None?)
    case SecondCheck(t) => t in w.tasks && w.tasks[t].Guarded?
    case AcquireForIo(t) => t !in w.tasks && w.writer.None?
    case Announce(t, _) => t !in w.tasks
    case AcquireExclusive(t) => t in w.tasks && w.tasks[t].Requesting? && w.writer.None? && w.readers == {}
    case CancelWait(t) => t in w.tasks && w.tasks[t].Requesting?
    case DropLease(t) => t in w.tasks && (w.tasks[t].SessionLease? || w.tasks[t].IoLease? || w.tasks[t].Exclusive?)
    case DropRequest(t) => t in w.tasks && w.tasks[t].Withdrawing?
  }

  /** The tasks whose request for `reason` is alive. */
  function Live(tasks: map<Task, Phase>, reason: Reason): set<Task> {
    set t | t in tasks && Announced(tasks[t]) && tasks[t].reason == reason
  }

  function Put(w: World, t: Task, p: Phase): World { w.(tasks := w.tasks[t := p]) }
  function Gone(w: World, t: Task): World { w.(tasks := w.tasks - {t}) }

  function Step(w: World, e: Event): World
    requires Enabled(w, e)
  {
    var v := w.(now := w.now + 1);
    match e
    case FirstCheck(t) => if w.requests.Any() then v else Put(v, t, Checked)
    case TryRead(t, granted) => if granted then Put(v.(readers := v.readers + {t}), t, Guarded) else Gone(v, t)
    case SecondCheck(t) =>
      if w.requests.Any() then Gone(v.(readers := v.readers - {t}), t) else Put(v, t, SessionLease(w.now))
    case AcquireForIo(t) => Put(v.(readers := v.readers + {t}), t, IoLease)
    case Announce(t, reason) => Put(v.(requests := v.requests.Begin(reason)), t, Requesting(reason, w.now))
    case AcquireExclusive(t) => Put(v.(writer := Some(t)), t, Exclusive(w.tasks[t].reason, w.tasks[t].since))
    case CancelWait(t) => Gone(v.(requests := v.requests.Drop(w.tasks[t].reason)), t)
    case DropLease(t) =>
      if w.tasks[t].Exclusive? then Put(v.(writer := None), t, Withdrawing(w.tasks[t].reason, w.tasks[t].since))
      else Gone(v.(readers := v.readers - {t}), t)
    case DropRequest(t) => Gone(v.(requests := v.requests.Drop(w.tasks[t].reason)), t)
  }

  // --- The invariant ------------------------------------------------------------------------

  ghost predicate Counted(w: World) {
    w.requests.pairing == |Live(w.tasks, Pairing)| && w.requests.hostTransition == |Live(w.tasks, HostTransition)|
  }

  /** The lock holds exactly the guards of the leases. */
  ghost predicate Locked(w: World) {
    && (forall t :: t in w.readers <==> t in w.tasks && Reads(w.tasks[t]))
    && (forall t :: w.writer == Some(t) <==> t in w.tasks && w.tasks[t].Exclusive?)
    && (w.writer.Some? ==> w.readers == {})
  }

  /** A session lease is older than every live request. */
  ghost predicate Stamped(w: World) {
    && (forall t :: t in w.tasks && (Announced(w.tasks[t]) || w.tasks[t].SessionLease?) ==> w.tasks[t].since < w.now)
    && (forall t, u :: t in w.tasks && u in w.tasks && w.tasks[t].SessionLease? && Announced(w.tasks[u])
          ==> w.tasks[t].since < w.tasks[u].since)
  }

  ghost predicate Inv(w: World) { Counted(w) && Locked(w) && Stamped(w) }

  lemma LiveUnchanged(tasks: map<Task, Phase>, tasks': map<Task, Phase>, t: Task, reason: Reason)
    requires forall u :: u != t ==> ((u in tasks <==> u in tasks') && (u in tasks ==> tasks[u] == tasks'[u]))
    requires (t in tasks && Announced(tasks[t]) && tasks[t].reason == reason)
             <==> (t in tasks' && Announced(tasks'[t]) && tasks'[t].reason == reason)
    ensures Live(tasks', reason) == Live(tasks, reason)
  {
    forall u ensures u in Live(tasks', reason) <==> u in Live(tasks, reason) {
      if u != t {}
    }
  }

  lemma LiveAdded(tasks: map<Task, Phase>, t: Task, reason: Reason, since: nat)
    requires t !in tasks
    ensures Live(tasks[t := Requesting(reason, since)], reason) == Live(tasks, reason) + {t}
  {}

  lemma LiveRemoved(tasks: map<Task, Phase>, t: Task)
    requires t in tasks && Announced(tasks[t])
    ensures Live(tasks - {t}, tasks[t].reason) == Live(tasks, tasks[t].reason) - {t}
    ensures t in Live(tasks, tasks[t].reason)
  {}

  lemma AnnounceCounted(w: World, t: Task, reason: Reason)
    requires Counted(w) && Enabled(w, Announce(t, reason))
    ensures Counted(Step(w, Announce(t, reason)))
  {
    LiveAdded(w.tasks, t, reason, w.now);
    LiveUnchanged(w.tasks, Step(w, Announce(t, reason)).tasks, t, if reason.Pairing? then HostTransition else Pairing);
  }

  lemma WithdrawCounted(w: World, e: Event)
    requires Counted(w) && Enabled(w, e) && (e.CancelWait? || e.DropRequest?)
    ensures Counted(Step(w, e))
  {
    LiveRemoved(w.tasks, e.t);
    LiveUnchanged(w.tasks, Step(w, e).tasks, e.t, if w.tasks[e.t].reason.Pairing? then HostTransition else Pairing);
  }

  lemma OthersCounted(w: World, e: Event)
    requires Counted(w) && Enabled(w, e) && !e.Announce? && !e.CancelWait? && !e.DropRequest?
    ensures Counted(Step(w, e))
  {
    LiveUnchanged(w.tasks, Step(w, e).tasks, e.t, Pairing);
    LiveUnchanged(w.tasks, Step(w, e).tasks, e.t, HostTransition);
  }

  /** The counts tell exactly whether some request is alive. */
  lemma AnyMeansLive(w: World)
    requires Counted(w)
    ensures w.requests.Any() <==> exists t :: t in w.tasks && Announced(w.tasks[t])
  {
    if t :| t in w.tasks && Announced(w.tasks[t]) {
      assert t in Live(w.tasks, w.tasks[t].reason);
    }
    if w.requests.Any() {
      var reason := if w.requests.pairing != 0 then Pairing else HostTransition;
      assert Live(w.tasks, reason) != {};
      var t :| t in Live(w.tasks, reason);
      assert t in w.tasks && Announced(w.tasks[t]);
    }
  }

  lemma LockKept(w: World, e: Event)
    requires Locked(w) && Enabled(w, e)
    ensures Locked(Step(w, e))
  {}

  lemma StampsKept(w: World, e: Event)
    requires Counted(w) && Stamped(w) && Enabled(w, e)
    ensures Stamped(Step(w, e))
  {
    AnyMeansLive(w);
  }

  lemma StepKeeps(w: World, e: Event)
    requires Inv(w) && Enabled(w, e)
    ensures Inv(Step(w, e))
  {
    if e.Announce? { AnnounceCounted(w, e.t, e.reason); }
    else if e.CancelWait? || e.DropRequest? { WithdrawCounted(w, e); }
    else { OthersCounted(w, e); }
    LockKept(w, e);
    StampsKept(w, e);
  }

  predicate Possible(w: World, es: seq<Event>)
    decreases |es|
  {
    es == [] || (Enabled(w, es[0]) && Possible(Step(w, es[0]), es[1..]))
  }

  function Run(w: World, es: seq<Event>): World
    requires Possible(w, es)
    decreases |es|
  {
    if es == [] then w else Run(Step(w, es[0]), es[1..])
  }

  lemma {:induction false} InvAlongRun(w: World, es: seq<Event>)
    requires Inv(w) && Possible(w, es)
    ensures Inv(Run(w, es))
    decreases |es|
  {
    if es != [] {
      StepKeeps(w, es[0]);
      InvAlongRun(Step(w, es[0]), es[1..]);
    }
  }

  /** In every interleaving the counts are the live requests, so none underflows. */
  lemma CountsAreLiveRequests(es: seq<Event>)
    requires Possible(START, es)
    ensures var w := Run(START, es);
            w.requests.pairing == |Live(w.tasks, Pairing)| >= 0
            && w.requests.hostTransition == |Live(w.tasks, HostTransition)| >= 0
  {
    InvAlongRun(START, es);
  }

  /** An exclusive lease excludes every other lease, and its request is still announced. */
  lemma ExclusiveLeaseIsAlone(es: seq<Event>, t: Task)
    requires Possible(START, es)
    requires var w := Run(START, es); t in w.tasks && w.tasks[t].Exclusive?
    ensures var w := Run(START, es);
            && (forall u :: u in w.tasks && u != t ==> !Reads(w.tasks[u]) && !w.tasks[u].Exclusive?)
            && w.requests.Of(w.tasks[t].reason) > 0
  {
    InvAlongRun(START, es);
    var w := Run(START, es);
    assert w.writer == Some(t);
    assert t in Live(w.tasks, w.tasks[t].reason);
  }

  /** At its first look, a session goes on exactly when no request is alive. */
  lemma SessionTriesIfUnrequested(es: seq<Event>, t: Task)
    requires Possible(START, es) && Enabled(Run(START, es), FirstCheck(t))
    ensures var w := Run(START, es);
            t in Step(w, FirstCheck(t)).tasks <==> forall u :: u in w.tasks ==> !Announced(w.tasks[u])
  {
    InvAlongRun(START, es);
    AnyMeansLive(Run(START, es));
  }

  /** At its second look, made with the read guard held, a session is granted exactly when no request is alive. */
  lemma SessionGrantedIfUnrequested(es: seq<Event>, t: Task)
    requires Possible(START, es) && Enabled(Run(START, es), SecondCheck(t))
    ensures var w := Run(START, es);
            var w' := Step(w, SecondCheck(t));
            && t in w.readers
            && ((t in w'.tasks && w'.tasks[t].SessionLease? && t in w'.readers)
                <==> forall u :: u in w.tasks ==> !Announced(w.tasks[u]))
            && (t !in w'.tasks <==> t !in w'.readers)
  {
    InvAlongRun(START, es);
    AnyMeansLive(Run(START, es));
  }

  /** Whatever session lease is still held, every live request was announced after it was granted. */
  lemma SessionsPredateRequests(es: seq<Event>, t: Task, u: Task)
    requires Possible(START, es)
    requires var w := Run(START, es);
             t in w.tasks && u in w.tasks && w.tasks[t].SessionLease? && Announced(w.tasks[u])
    ensures var w := Run(START, es); w.tasks[t].since < w.tasks[u].since
  {
    InvAlongRun(START, es);
  }

  /** The announced counts as the object keeps them. */
  class RequestCounts {
    var pairing: int
    var hostTransition: int

    ghost function Model(): Requests reads this { Requests(pairing, hostTransition) }

    constructor ()
      ensures Model() == Requests(0, 0)
    {
      pairing, hostTransition := 0, 0;
    }

    method Begin(reason: Reason)
      modifies this
      ensures Model() == old(Model()).Begin(reason)
    {
      match reason
      case Pairing => pairing := pairing + 1;
      case HostTransition => hostTransition := hostTransition + 1;
    }

    method Drop(reason: Reason)
      modifies this
      ensures Model() == old(Model()).Drop(reason)
    {
      match reason
      case Pairing => pairing := pairing - 1;
      case HostTransition => hostTransition := hostTransition - 1;
    }

    method ExclusiveRequested() returns (any: bool)
      ensures any == Model().Any()
    {
      any := pairing != 0 || hostTransition != 0;
    }
  }
}
