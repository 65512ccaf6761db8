/**
  Held DPI shifts (runtime.rs): presses counted per device. The first press of a device writes its low
  DPI, the last release decides on the restore.
*/
module HeldDpiShifts {
  import opened Basics

  type Token = nat

  /** What the DPI cycles know of the device a press names. */
  datatype Target = Target(key: string, route: DeviceRoute)
  datatype HeldShift = HeldShift(presses: nat, key: string)
  datatype Holds = Holds(byPress: map<Token, DeviceRoute>, byDevice: map<DeviceRoute, HeldShift>)

  const EMPTY := Holds(map[], map[])

  /** A press starts a shift on its target, if it has one, or ends. */
  datatype Event = Started(press: Token, target: Option<Target>) | Ended(press: Token)

  predicate Registers(h: Holds, e: Event) {
    e.Started? && e.press !in h.byPress && e.target.Some?
  }

  /** The first press of a device: its low DPI is written. */
  predicate WritesLow(h: Holds, e: Event) {
    Registers(h, e) && e.target.value.route !in h.byDevice
  }

  /** The last release of a device: its restore is decided. */
  predicate DecidesRestore(h: Holds, e: Event) {
    && e.Ended? && e.press in h.byPress && h.byPress[e.press] in h.byDevice
    && h.byDevice[h.byPress[e.press]].presses <= 1
  }

  function Step(h: Holds, e: Event): Holds {
    match e
    case Started(press, target) =>
      if press in h.byPress || target.None? then h else
      var route := target.value.route;
      var held := if route in h.byDevice
                  then h.byDevice[route].(presses := h.byDevice[route].presses + 1)
                  else HeldShift(1, target.value.key);
      Holds(h.byPress[press := route], h.byDevice[route := held])
    case Ended(press) =>
      if press !in h.byPress then h else
      var route := h.byPress[press];
      var byPress := h.byPress - {press};
      if route !in h.byDevice then Holds(byPress, h.byDevice)
      else if h.byDevice[route].presses > 1 then
        Holds(byPress, h.byDevice[route := h.byDevice[route].(presses := h.byDevice[route].presses - 1)])
      else Holds(byPress, h.byDevice - {route})
  }

  function Run(h: Holds, es: seq<Event>): Holds
    decreases |es|
  {
    if es == [] then h else Step(Run(h, es[..|es| - 1]), es[|es| - 1])
  }

  /** The presses registered for `route`. */
  function Presses(h: Holds, route: DeviceRoute): set<Token> {
    set t | t in h.byPress && h.byPress[t] == route
  }

  /** Each count is the number of presses registered for its device, and no press lacks its device. */
  ghost predicate Conserved(h: Holds) {
    && (forall d :: d in h.byDevice ==> h.byDevice[d].presses == |Presses(h, d)| > 0)
    && (forall t :: t in h.byPress ==> h.byPress[t] in h.byDevice)
  }

  lemma StepConserves(h: Holds, e: Event)
    requires Conserved(h)
    ensures Conserved(Step(h, e))
  {
    var h' := Step(h, e);
    match e
    case Started(press, target) =>
      if press !in h.byPress && target.Some? {
        var route := target.value.route;
        forall d | d in h'.byDevice ensures h'.byDevice[d].presses == |Presses(h', d)| > 0 {
          if d == route {
            assert Presses(h', d) == Presses(h, d) + {press};
            if d !in h.byDevice { assert Presses(h, d) == {}; }
          } else {
            assert Presses(h', d) == Presses(h, d);
          }
        }
      }
    case Ended(press) =>
      if press in h.byPress {
        var route := h.byPress[press];
        assert Presses(h', route) == Presses(h, route) - {press};
        forall d | d in h'.byDevice ensures h'.byDevice[d].presses == |Presses(h', d)| > 0 {
          if d != route { assert Presses(h', d) == Presses(h, d); }
        }
        forall t | t in h'.byPress ensures h'.byPress[t] in h'.byDevice {
          if h'.byPress[t] == route {
            assert t in Presses(h', route);
            assert |Presses(h', route)| == h.byDevice[route].presses - 1 > 0;
          }
        }
      }
  }

  lemma {:induction false} RunConserves(es: seq<Event>)
    ensures Conserved(Run(EMPTY, es))
    decreases |es|
  {
    if es != [] {
      RunConserves(es[..|es| - 1]);
      StepConserves(Run(EMPTY, es[..|es| - 1]), es[|es| - 1]);
    }
  }

  function LowWrites(es: seq<Event>, d: DeviceRoute): nat
    decreases |es|
  {
    if es == [] then 0 else
    var init, e := es[..|es| - 1], es[|es| - 1];
    LowWrites(init, d) + if WritesLow(Run(EMPTY, init), e) && e.target.value.route == d then 1 else 0
  }

  function RestoreDecisions(es: seq<Event>, d: DeviceRoute): nat
    decreases |es|
  {
    if es == [] then 0 else
    var init, e := es[..|es| - 1], es[|es| - 1];
    var h := Run(EMPTY, init);
    RestoreDecisions(init, d) + if DecidesRestore(h, e) && h.byPress[e.press] == d then 1 else 0
  }

  /** Every hold makes one low write as it begins and one restore decision as it ends. */
  lemma {:induction false} OneWriteOneDecision(es: seq<Event>, d: DeviceRoute)
    ensures LowWrites(es, d) == RestoreDecisions(es, d) + if d in Run(EMPTY, es).byDevice then 1 else 0
    decreases |es|
  {
    if es != [] {
      OneWriteOneDecision(es[..|es| - 1], d);
      RunConserves(es[..|es| - 1]);
    }
  }

  /** Every press that starts ends later. */
  ghost predicate Balanced(es: seq<Event>) {
    forall i :: 0 <= i < |es| && es[i].Started? ==> exists j :: i < j < |es| && es[j] == Ended(es[i].press)
  }

  lemma {:induction false} RegisteredPressIsOpen(es: seq<Event>, t: Token)
    requires t in Run(EMPTY, es).byPress
    ensures exists i :: 0 <= i < |es| && es[i].Started? && es[i].press == t
                        && forall j :: i < j < |es| ==> es[j] != Ended(t)
    decreases |es|
  {
    var init, e := es[..|es| - 1], es[|es| - 1];
    if t in Run(EMPTY, init).byPress {
      RegisteredPressIsOpen(init, t);
      var i :| 0 <= i < |init| && init[i].Started? && init[i].press == t
               && forall j :: i < j < |init| ==> init[j] != Ended(t);
      assert es[i].Started? && es[i].press == t;
      assert forall j :: i < j < |es| ==> es[j] == e || es[j] == init[j];
    } else {
      assert es[|es| - 1].Started? && es[|es| - 1].press == t;
    }
  }

  lemma BalancedLeavesNothing(es: seq<Event>)
    requires Balanced(es)
    ensures Run(EMPTY, es) == EMPTY
  {
    var h := Run(EMPTY, es);
    forall t ensures t !in h.byPress {
      if t in h.byPress {
        RegisteredPressIsOpen(es, t);
        assert false;
      }
    }
    assert forall d :: Presses(h, d) == {};
    RunConserves(es);
    assert h.byPress == map[] && h.byDevice == map[];
  }

  // --- The holds, told by the presses -----------------------------------------------------------

  /** Event `i` starts press `t` on a target at `d`. */
  predicate StartsOn(e: Event, t: Token, d: DeviceRoute) {
    e.Started? && e.press == t && e.target.Some? && e.target.value.route == d
  }

  /** Press `t` was started on a target before event `i` and has not ended since. */
  ghost predicate StillDown(es: seq<Event>, t: Token, i: nat)
    requires i <= |es|
  {
    exists k :: 0 <= k < i && es[k].Started? && es[k].press == t && es[k].target.Some?
                && forall l :: k < l < i ==> es[l] != Ended(t)
  }

  /** Event `i` put press `t` down on `d`, and it has not ended since. A start of a press that is down does not count. */
  ghost predicate DownSince(es: seq<Event>, t: Token, d: DeviceRoute, i: nat) {
    && i < |es| && StartsOn(es[i], t, d) && !StillDown(es, t, i)
    && forall j :: i < j < |es| ==> es[j] != Ended(t)
  }

  ghost predicate IsDown(es: seq<Event>, t: Token, d: DeviceRoute) {
    exists i: nat :: DownSince(es, t, d, i)
  }

  lemma PrefixStillDown(es: seq<Event>, t: Token, i: nat)
    requires i < |es|
    ensures StillDown(es[..|es| - 1], t, i) <==> StillDown(es, t, i)
  {
    var init := es[..|es| - 1];
    assert forall k :: 0 <= k < |init| ==> init[k] == es[k];
    if StillDown(es, t, i) {
      var k :| 0 <= k < i && es[k].Started? && es[k].press == t && es[k].target.Some?
               && forall l :: k < l < i ==> es[l] != Ended(t);
      assert init[k].Started?;
    }
    if StillDown(init, t, i) {
      var k :| 0 <= k < i && init[k].Started? && init[k].press == t && init[k].target.Some?
               && forall l :: k < l < i ==> init[l] != Ended(t);
      assert es[k].Started? && forall l :: k < l < i ==> es[l] == init[l];
    }
  }

  /** A press is down on some device exactly when it was started on a target and has not ended since. */
  lemma {:induction false} DownOnSomething(es: seq<Event>, t: Token)
    ensures StillDown(es, t, |es|) <==> exists d :: IsDown(es, t, d)
    decreases |es|
  {
    if es == [] {
      assert forall d, i: nat :: !DownSince(es, t, d, i);
    } else {
      var n := |es| - 1;
      var init, e := es[..n], es[n];
      DownOnSomething(init, t);
      PrefixStillDown(es, t, n);
      DownOneMore(es, t);
      StillDownOneMore(es, t, n);
      if StillDown(es, t, n + 1) {
        if StillDown(es, t, n) {
          var d :| IsDown(init, t, d);
          assert IsDown(es, t, d);
        } else {
          assert IsDown(es, t, e.target.value.route);
        }
      }
    }
  }

  lemma StillDownOneMore(es: seq<Event>, t: Token, n: nat)
    requires n < |es|
    ensures StillDown(es, t, n + 1) <==>
            es[n] != Ended(t) && (StillDown(es, t, n) || (es[n].Started? && es[n].press == t && es[n].target.Some?))
  {
    if StillDown(es, t, n) && es[n] != Ended(t) {
      var k :| 0 <= k < n && es[k].Started? && es[k].press == t && es[k].target.Some?
               && forall l :: k < l < n ==> es[l] != Ended(t);
      assert forall l :: k < l < n + 1 ==> es[l] != Ended(t);
    }
  }

  /** One more event: the press stays down, goes down if it was up, or goes up. */
  lemma DownOneMore(es: seq<Event>, t: Token)
    requires es != []
    ensures var init, e := es[..|es| - 1], es[|es| - 1];
            forall d :: IsDown(es, t, d) <==>
              e != Ended(t) && (IsDown(init, t, d) || (StartsOn(e, t, d) && !StillDown(es, t, |es| - 1)))
  {
    var n := |es| - 1;
    var init, e := es[..n], es[n];
    forall d ensures IsDown(es, t, d) <==> e != Ended(t) && (IsDown(init, t, d) || (StartsOn(e, t, d) && !StillDown(es, t, n))) {
      if IsDown(es, t, d) {
        var i: nat :| DownSince(es, t, d, i);
        if i < n {
          PrefixStillDown(es, t, i);
          assert DownSince(init, t, d, i);
        }
      }
      if e != Ended(t) && IsDown(init, t, d) {
        var i: nat :| DownSince(init, t, d, i);
        PrefixStillDown(es, t, i);
        assert forall j :: i < j < n ==> es[j] == init[j];
        assert DownSince(es, t, d, i);
      }
      if StartsOn(e, t, d) && !StillDown(es, t, n) {
        assert DownSince(es, t, d, n);
      }
    }
  }

  /** A press is registered for exactly the device it is down on. */
  lemma {:induction false} RegisteredIsDown(es: seq<Event>, t: Token)
    ensures var h := Run(EMPTY, es);
            forall d :: (t in h.byPress && h.byPress[t] == d) <==> IsDown(es, t, d)
    decreases |es|
  {
    if es == [] {
      assert forall d, i: nat :: !DownSince(es, t, d, i);
    } else {
      var n := |es| - 1;
      var init, e := es[..n], es[n];
      RegisteredIsDown(init, t);
      RunConserves(init);
      DownOneMore(es, t);
      DownOnSomething(init, t);
      PrefixStillDown(es, t, n);
      assert StillDown(es, t, n) <==> t in Run(EMPTY, init).byPress by {
        if t in Run(EMPTY, init).byPress { assert IsDown(init, t, Run(EMPTY, init).byPress[t]); }
      }
    }
  }

  /** A device is held exactly while some press is down on it. */
  lemma HeldIsDown(es: seq<Event>, d: DeviceRoute)
    ensures d in Run(EMPTY, es).byDevice <==> exists t :: IsDown(es, t, d)
  {
    var h := Run(EMPTY, es);
    RunConserves(es);
    if d in h.byDevice {
      var t :| t in Presses(h, d);
      RegisteredIsDown(es, t);
      assert IsDown(es, t, d);
    }
    if exists t :: IsDown(es, t, d) {
      var t :| IsDown(es, t, d);
      RegisteredIsDown(es, t);
    }
  }

  /** The restore of a device is decided exactly when the last press that is down on it ends. */
  lemma DecidesOnTheLast(es: seq<Event>, t: Token)
    ensures DecidesRestore(Run(EMPTY, es), Ended(t)) <==>
            exists d :: IsDown(es, t, d) && forall u :: u != t ==> !IsDown(es, u, d)
  {
    var h := Run(EMPTY, es);
    RunConserves(es);
    RegisteredIsDown(es, t);
    if t in h.byPress {
      var d := h.byPress[t];
      assert IsDown(es, t, d);
      if h.byDevice[d].presses <= 1 {
        forall u | u != t ensures !IsDown(es, u, d) {
          RegisteredIsDown(es, u);
          if IsDown(es, u, d) {
            Two(Presses(h, d), t, u);
            assert false;
          }
        }
      }
      if forall u :: u != t ==> !IsDown(es, u, d) {
        forall u: Token ensures u in Presses(h, d) <==> u == t {
          RegisteredIsDown(es, u);
          assert (u in h.byPress && h.byPress[u] == d) <==> IsDown(es, u, d);
        }
        assert Presses(h, d) == {t};
      }
    }
  }

  lemma Two(s: set<Token>, t: Token, u: Token)
    requires t in s && u in s && t != u
    ensures |s| > 1
  {
    assert {t, u} <= s;
    assert |s - {t, u}| == |s| - |{t, u}|;
  }

  /** The low DPI of a device is written exactly when a press that was up goes down on it with no other down there. */
  lemma LowersOnTheFirst(es: seq<Event>, t: Token, target: Option<Target>)
    ensures WritesLow(Run(EMPTY, es), Started(t, target)) <==>
            && target.Some? && (forall d :: !IsDown(es, t, d))
            && forall u :: !IsDown(es, u, target.value.route)
  {
    var h := Run(EMPTY, es);
    RegisteredIsDown(es, t);
    if t in h.byPress {
      assert IsDown(es, t, h.byPress[t]);
    }
    if target.Some? {
      HeldIsDown(es, target.value.route);
    }
  }

  /** Event `j` wrote the low DPI of `d`. */
  predicate Lowered(es: seq<Event>, d: DeviceRoute, j: nat)
    requires j < |es|
  {
    WritesLow(Run(EMPTY, es[..j]), es[j]) && es[j].target.value.route == d
  }

  /** A held shift is the one its first press began: event `i` wrote its low DPI, and none since. */
  lemma {:induction false} HeldSinceItsLowWrite(es: seq<Event>, d: DeviceRoute) returns (i: nat)
    requires d in Run(EMPTY, es).byDevice
    ensures i < |es| && Lowered(es, d, i) && Run(EMPTY, es).byDevice[d].key == es[i].target.value.key
    ensures forall j :: i < j < |es| ==> !Lowered(es, d, j)
    decreases |es|
  {
    var n := |es| - 1;
    if Lowered(es, d, n) {
      i := n;
    } else {
      i := HeldSinceItsLowWrite(es[..n], d);
      forall j | 0 <= j < n ensures Lowered(es[..n], d, j) == Lowered(es, d, j) {
        assert es[..n][..j] == es[..j];
      }
    }
  }

  class HeldDpiShifts {
    var byPress: map<Token, DeviceRoute>
    var byDevice: map<DeviceRoute, HeldShift>

    ghost function Model(): Holds reads this { Holds(byPress, byDevice) }

    ghost predicate Valid() reads this { Conserved(Model()) }

    constructor ()
      ensures Valid() && Model() == EMPTY
    {
      byPress, byDevice := map[], map[];
    }

    method Start(press: Token, target: Option<Target>) returns (writesLow: bool)
      requires Valid()
      modifies this
      ensures Valid() && Model() == Step(old(Model()), Started(press, target))
      ensures writesLow <==> WritesLow(old(Model()), Started(press, target))
    {
      StepConserves(Model(), Started(press, target));
      if press in byPress || target.None? {
        return false;
      }
      var route := target.value.route;
      byPress := byPress[press := route];
      if route in byDevice {
        byDevice := byDevice[route := byDevice[route].(presses := byDevice[route].presses + 1)];
        return false;
      }
      byDevice := byDevice[route := HeldShift(1, target.value.key)];
      return true;
    }

    /** The shift whose restore this release decides, if it is the last one of its device. */
    method End(press: Token) returns (released: Option<HeldShift>)
      requires Valid()
      modifies this
      ensures Valid() && Model() == Step(old(Model()), Ended(press))
      ensures released.Some? <==> DecidesRestore(old(Model()), Ended(press))
      ensures released.Some? ==> released.value == old(byDevice)[old(byPress)[press]].(presses := 0)
    {
      StepConserves(Model(), Ended(press));
      if press !in byPress {
        return None;
      }
      var route := byPress[press];
      byPress := byPress - {press};
      var held := byDevice[route].(presses := byDevice[route].presses - 1);
      if held.presses > 0 {
        byDevice := byDevice[route := held];
        return None;
      }
      byDevice := byDevice - {route};
      return Some(held);
    }
  }
}
