/**
  What the Actions Ring answers, told by the commands it was given (action_ring.rs): which session is open, and what
  each command says of it, follow from the sequence of events alone.
*/
module RingAnswers {
  import opened Basics
  import opened ActionRing

  // --- Which session is open -------------------------------------------------------------------

  /** Past the lifetime of a session opened at `at`. */
  predicate Late(at: Time, now: Time) { now > at + SESSION_LIFETIME }

  /** No trigger release lies between the events `i` and `j`. */
  ghost predicate Unreleased(es: seq<Event>, i: nat, j: nat)
    requires j <= |es|
  {
    forall k :: i < k < j ==> !es[k].Releasing?
  }

  /** Event `j` ends the session that event `i` began, if nothing ended it before. */
  ghost predicate Ends(es: seq<Event>, i: nat, j: nat)
    requires i < j < |es| && es[i].Beginning?
  {
    var Beginning(id, spec, at) := es[i];
    match es[j]
    case Reserving => false
    case Beginning(_, _, _) => true
    case Cancelling(s) => s == id
    case Dismissing(now) => spec.layout.Keys != {} || Late(at, now)
    case Asking(now) => Late(at, now)
    case Hovering(_, _, now) => Late(at, now)
    case Unhovering(_, now) => Late(at, now)
    case Activating(s, slot, now) => Late(at, now) || (s == id && slot in spec.layout)
    case Releasing(now) => Late(at, now) || (now >= at + HOLD_TO_CHOOSE && Unreleased(es, i, j))
  }

  /** The session that event `i` began is open after all of `es`. */
  ghost predicate IsOpen(es: seq<Event>, i: nat) {
    i < |es| && es[i].Beginning? && forall j :: i < j < |es| ==> !Ends(es, i, j)
  }

  /** `w` has the session that event `i` of `es` began open, with its trigger held exactly if no release followed. */
  ghost predicate Has(w: World, es: seq<Event>, i: nat)
    requires i < |es| && es[i].Beginning?
  {
    && Names(w.ring, es[i].id) && es[i].id in w.history && w.history[es[i].id] == Opening(es[i].spec, es[i].now)
    && (es[i].id in w.released <==> !Unreleased(es, i, |es|))
  }

  lemma {:induction false} LastStep(es: seq<Event>)
    requires es != [] && Possible(START, es)
    ensures var init, e := es[..|es| - 1], es[|es| - 1];
            && Possible(START, init) && Inv(Run(START, init)) && Enabled(Run(START, init), e)
            && Run(START, es) == Step(Run(START, init), e)
  {
    var init, e := es[..|es| - 1], es[|es| - 1];
    assert es == init + [e];
    RunJoins(START, init, [e]);
    InvAlongRun(START, init);
  }

  /** What ends the active session, by its history. */
  lemma StaysActive(w: World, e: Event, id: SessionId)
    requires Inv(w) && Enabled(w, e) && Names(w.ring, id) && !e.Beginning?
    ensures var o := w.history[id];
            var ends := match e
                        case Reserving => false
                        case Cancelling(s) => s == id
                        case Dismissing(now) => o.spec.layout.Keys != {} || Late(o.at, now)
                        case Asking(now) => Late(o.at, now)
                        case Hovering(_, _, now) => Late(o.at, now)
                        case Unhovering(_, now) => Late(o.at, now)
                        case Activating(s, slot, now) => Late(o.at, now) || (s == id && slot in o.spec.layout)
                        case Releasing(now) => Late(o.at, now) || (now >= o.at + HOLD_TO_CHOOSE && id !in w.released)
                        case _ => true;
            Names(Step(w, e).ring, id) <==> !ends
  {
    if !e.Reserving? && !e.Cancelling? {
      FreshFacts(w.ring, e.now);
    }
    if e.Dismissing? {
      LiveIsActive(w, e.now);
    }
  }

  lemma NothingBegins(w: World, e: Event)
    requires Inv(w) && !e.Beginning?
    ensures Step(w, e).ring.active.Some? ==>
              w.ring.active.Some? && Names(Step(w, e).ring, w.ring.active.value.invocation.session)
    ensures Step(w, e).history == w.history
    ensures Step(w, e).ring.active.Some? ==>
              Step(w, e).released == if e.Releasing? then w.released + {w.ring.active.value.invocation.session} else w.released
  {
    if !e.Reserving? && !e.Cancelling? {
      FreshFacts(w.ring, e.now);
    }
  }

  lemma OneMoreEvent(es: seq<Event>, i: nat)
    requires i < |es| - 1
    ensures var n := |es| - 1;
            && (Unreleased(es[..n], i, n) <==> Unreleased(es, i, n))
            && (Unreleased(es, i, n + 1) <==> Unreleased(es, i, n) && !es[n].Releasing?)
  {}

  /** The session stays open through one more event that does not end it, and closes on one that does. */
  lemma OpenAfter(es: seq<Event>, i: nat)
    requires Possible(START, es) && i < |es| - 1 && es[i].Beginning? && !es[|es| - 1].Beginning?
    requires Has(Run(START, es[..|es| - 1]), es[..|es| - 1], i)
    ensures if Ends(es, i, |es| - 1) then !Names(Run(START, es).ring, es[i].id) else Has(Run(START, es), es, i)
  {
    LastStep(es);
    var n := |es| - 1;
    var w, e := Run(START, es[..n]), es[n];
    OneMoreEvent(es, i);
    StaysActive(w, e, es[i].id);
    NothingBegins(w, e);
  }

  lemma {:induction false} OpenIsActive(es: seq<Event>, i: nat)
    requires Possible(START, es) && IsOpen(es, i)
    ensures Has(Run(START, es), es, i)
    decreases |es|
  {
    LastStep(es);
    var n := |es| - 1;
    if i < n {
      var init := es[..n];
      forall j | i < j < n ensures !Ends(init, i, j) {
        assert Unreleased(es, i, j) <==> Unreleased(init, i, j);
        assert !Ends(es, i, j);
      }
      OpenIsActive(init, i);
      assert !Ends(es, i, n);
      OpenAfter(es, i);
    } else {
      assert Unreleased(es, i, n + 1);
      assert Inv(Run(START, es[..n]));
      BeginsUnreleased(Run(START, es[..n]), es[n]);
    }
  }

  lemma BeginsUnreleased(w: World, e: Event)
    requires Inv(w) && Enabled(w, e) && e.Beginning?
    ensures e.id !in Step(w, e).released && Names(Step(w, e).ring, e.id)
    ensures Step(w, e).history == w.history[e.id := Opening(e.spec, e.now)]
  {}

  lemma {:induction false} ActiveIsOpen(es: seq<Event>) returns (i: nat)
    requires Possible(START, es) && Run(START, es).ring.active.Some?
    ensures IsOpen(es, i) && Names(Run(START, es).ring, es[i].id)
    decreases |es|
  {
    LastStep(es);
    var n := |es| - 1;
    var init, e := es[..n], es[n];
    if e.Beginning? {
      i := n;
      BeginsUnreleased(Run(START, init), e);
    } else {
      NothingBegins(Run(START, init), e);
      i := ActiveIsOpen(init);
      OpenIsActive(init, i);
      OpenAfter(es, i);
      forall j | i < j < |es| ensures !Ends(es, i, j) {
        if j < n {
          assert Unreleased(es, i, j) <==> Unreleased(init, i, j);
          assert !Ends(init, i, j);
        }
      }
    }
  }

  /** In every run, the active session is the one its events leave open, and there is none if they leave none open. */
  lemma ActiveExactly(es: seq<Event>, i: nat)
    requires Possible(START, es) && i < |es| && es[i].Beginning?
    ensures Names(Run(START, es).ring, es[i].id) <==> IsOpen(es, i)
  {
    if IsOpen(es, i) {
      OpenIsActive(es, i);
    }
    if Names(Run(START, es).ring, es[i].id) {
      var k := ActiveIsOpen(es);
      IdsDiffer(es, i, k);
    }
  }

  /** No two sessions begin under one id. */
  lemma {:induction false} IdsDiffer(es: seq<Event>, i: nat, k: nat)
    requires Possible(START, es) && i < |es| && k < |es| && es[i].Beginning? && es[k].Beginning? && es[i].id == es[k].id
    ensures i == k
    decreases |es|
  {
    if i < |es| - 1 && k < |es| - 1 {
      LastStep(es);
      IdsDiffer(es[..|es| - 1], i, k);
    } else if i < |es| - 1 {
      LastIdIsNew(es, i);
    } else if k < |es| - 1 {
      LastIdIsNew(es, k);
    }
  }

  lemma LastIdIsNew(es: seq<Event>, i: nat)
    requires Possible(START, es) && i < |es| - 1 && es[i].Beginning? && es[|es| - 1].Beginning?
    ensures es[i].id != es[|es| - 1].id
  {
    LastStep(es);
    BegunIsHistory(es[..|es| - 1], i);
  }

  lemma {:induction false} BegunIsHistory(es: seq<Event>, i: nat)
    requires Possible(START, es) && i < |es| && es[i].Beginning?
    ensures es[i].id in Run(START, es).history
    decreases |es|
  {
    LastStep(es);
    if i < |es| - 1 {
      BegunIsHistory(es[..|es| - 1], i);
    }
  }

  // --- What the commands answer ------------------------------------------------------------------

  /** The open session, if it is within its lifetime at `now`. */
  ghost predicate Timely(es: seq<Event>, i: nat, now: Time) {
    IsOpen(es, i) && !Late(es[i].now, now)
  }

  ghost predicate NoneTimely(es: seq<Event>, now: Time) {
    forall i :: 0 <= i < |es| ==> !Timely(es, i, now)
  }

  /** The ring a command finds: that of the open session within its lifetime, or none. */
  lemma Finds(es: seq<Event>, now: Time) returns (i: nat)
    requires Possible(START, es)
    ensures var r1 := Fresh(Run(START, es).ring, now);
            if r1.active.None? then NoneTimely(es, now)
            else
              && Timely(es, i, now) && r1 == Run(START, es).ring
              && r1.active.value == Open(es[i].id, es[i].spec, es[i].now)
                                    .(hovered := r1.active.value.hovered, triggerHeld := Unreleased(es, i, |es|))
  {
    InvAlongRun(START, es);
    var w := Run(START, es);
    FreshFacts(w.ring, now);
    if w.ring.active.Some? {
      i := ActiveIsOpen(es);
      OpenIsActive(es, i);
      forall k | 0 <= k < |es| ensures Timely(es, k, now) ==> k == i {
        if Timely(es, k, now) {
          ActiveExactly(es, k);
          IdsDiffer(es, i, k);
        }
      }
    } else {
      i := 0;
      forall k | 0 <= k < |es| ensures !Timely(es, k, now) {
        if Timely(es, k, now) {
          OpenIsActive(es, k);
          assert false;
        }
      }
    }
  }

  /** An activation succeeds exactly on a filled slot of the open session within its lifetime, with the action of its layout. */
  lemma ActivateIsExact(es: seq<Event>, i: nat, slot: Slot, now: Time)
    requires Possible(START, es) && i < |es| && es[i].Beginning?
    ensures ActivateResult(Run(START, es).ring, es[i].id, slot, now)
            == if !Timely(es, i, now) then Err(SessionNotFound)
               else if slot !in es[i].spec.layout then Err(SlotEmpty)
               else Ok(Activation(es[i].spec.deviceKey, es[i].spec.layout[slot].action, es[i].spec.haptic))
  {
    var k := Finds(es, now);
    if Fresh(Run(START, es).ring, now).active.Some? {
      Same(es, i, k, now);
    }
  }

  lemma Same(es: seq<Event>, i: nat, k: nat, now: Time)
    requires Possible(START, es) && i < |es| && es[i].Beginning? && Timely(es, k, now)
    ensures Timely(es, i, now) <==> i == k
    ensures es[i].id == es[k].id <==> i == k
  {
    OpenIsActive(es, k);
    if Timely(es, i, now) {
      OpenIsActive(es, i);
    }
    if es[i].id == es[k].id {
      IdsDiffer(es, i, k);
    }
  }

  /** A hover is told apart by its session, its slot and the highlight the session's reports left. */
  lemma HoverIsExact(es: seq<Event>, i: nat, slot: Slot, now: Time)
    requires Possible(START, es) && i < |es| && es[i].Beginning?
    ensures HoverResult(Run(START, es).ring, es[i].id, slot, now)
            == if !Timely(es, i, now) then Err(SessionNotFound)
               else if slot !in es[i].spec.layout then Err(SlotEmpty)
               else if Highlight(es, es[i].id, es[i].spec.layout.Keys) == Some(slot) then Ok(None)
               else Ok(Some(es[i].spec.haptic))
  {
    var k := Finds(es, now);
    if Fresh(Run(START, es).ring, now).active.Some? {
      Same(es, i, k, now);
      HighlightFollowsTheReports(es);
      assert Actions(es[k].spec.layout).Keys == es[k].spec.layout.Keys;
    }
  }

  /** A dismissal closes and names the open session within its lifetime, if its layout has a filled slot. */
  lemma DismissIsExact(es: seq<Event>, i: nat, now: Time)
    requires Possible(START, es) && i < |es| && es[i].Beginning?
    ensures DismissResult(Run(START, es).ring, now) == Some(es[i].id)
       <==> Timely(es, i, now) && es[i].spec.layout.Keys != {}
  {
    var k := Finds(es, now);
    InvAlongRun(START, es);
    LiveIsActive(Run(START, es), now);
    if Fresh(Run(START, es).ring, now).active.Some? {
      Same(es, i, k, now);
      OpenIsActive(es, k);
    }
  }

  /**
    A release is kept exactly when no session is open within its lifetime, or a release came since it began, or it
    began less than `HOLD_TO_CHOOSE` ago. Kept, it leaves the session open; otherwise none is left.
  */
  lemma ReleaseIsExact(es: seq<Event>, i: nat, now: Time)
    requires Possible(START, es) && i < |es| && es[i].Beginning?
    ensures Timely(es, i, now) ==>
            var counts := Unreleased(es, i, |es|) && now >= es[i].now + HOLD_TO_CHOOSE;
            && (LetGoResult(Run(START, es).ring, now).Kept? <==> !counts)
            && (if counts then LetGo(Run(START, es).ring, now).active.None?
                else Names(LetGo(Run(START, es).ring, now), es[i].id))
  {
    var k := Finds(es, now);
    if Fresh(Run(START, es).ring, now).active.Some? {
      Same(es, i, k, now);
    }
  }

  /** With no session open within its lifetime, every command finds none and leaves none. */
  lemma NoSessionAnswers(es: seq<Event>, id: SessionId, slot: Slot, now: Time)
    requires Possible(START, es) && NoneTimely(es, now)
    ensures var r := Run(START, es).ring;
            && ActivateResult(r, id, slot, now) == Err(SessionNotFound) && HoverResult(r, id, slot, now) == Err(SessionNotFound)
            && LetGoResult(r, now).Kept? && DismissResult(r, now).None?
            && LetGo(r, now).active.None? && Dismiss(r, now).active.None? && Activate(r, id, slot, now).active.None?
  {
    var i := Finds(es, now);
  }

  /** An id no session began under is not found. */
  lemma UnknownIdAnswers(es: seq<Event>, id: SessionId, slot: Slot, now: Time)
    requires Possible(START, es) && forall i :: 0 <= i < |es| && es[i].Beginning? ==> es[i].id != id
    ensures var r := Run(START, es).ring;
            ActivateResult(r, id, slot, now) == Err(SessionNotFound) && HoverResult(r, id, slot, now) == Err(SessionNotFound)
  {
    var i := Finds(es, now);
  }

  /** What a release that counts answers: the action its layout held in the highlighted slot, or a cancel without one. */
  lemma ReleaseAnswers(es: seq<Event>, i: nat, now: Time)
    requires Possible(START, es) && Timely(es, i, now)
    requires Unreleased(es, i, |es|) && now >= es[i].now + HOLD_TO_CHOOSE
    ensures var Beginning(id, spec, _) := es[i];
            var slot := Highlight(es, id, spec.layout.Keys);
            LetGoResult(Run(START, es).ring, now)
            == if slot.Some? && slot.value in spec.layout
               then Activated(id, Activation(spec.deviceKey, spec.layout[slot.value].action, spec.haptic))
               else Cancelled(id)
  {
    ReleaseIsExact(es, i, now);
    OpenIsActive(es, i);
    ReleaseRunsTheHighlight(es, now);
  }

  /** What the overlay observes: each filled slot of the open session under its own label and icon, or those of its action. */
  lemma ShowsTheLayout(es: seq<Event>, i: nat, slot: Slot)
    requires Possible(START, es) && IsOpen(es, i)
    ensures var Beginning(id, spec, _) := es[i];
            var seen := Run(START, es).ring.published.invocation;
            && seen.Some? && seen.value.session == id && seen.value.language == spec.language && seen.value.size == spec.size
            && (slot in seen.value.slots <==> slot in spec.layout)
            && (slot in spec.layout ==>
                  var shown, entry := seen.value.slots[slot], spec.layout[slot];
                  && (entry.customLabel.Some? ==> shown.literal && shown.text == entry.customLabel.value)
                  && (entry.customLabel.None? ==> !shown.literal && shown.text == entry.action.title)
                  && shown.icon == (if entry.customIcon.Some? then entry.customIcon.value else entry.action.icon))
  {
    InvAlongRun(START, es);
    OpenIsActive(es, i);
  }

  /** And nothing when no session is open. */
  lemma ShowsNothingElse(es: seq<Event>)
    requires Possible(START, es) && forall i :: 0 <= i < |es| ==> !IsOpen(es, i)
    ensures Run(START, es).ring.published.invocation.None?
  {
    InvAlongRun(START, es);
    if Run(START, es).ring.active.Some? {
      var i := ActiveIsOpen(es);
      assert false;
    }
  }
}
