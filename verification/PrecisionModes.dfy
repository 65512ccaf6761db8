/**
  What the operations of `PointerSpeeds` mean for the modes, the debts and the speeds to return to: each is
  compared with the state before it and with the operations that undo it, not with its own steps.
*/
module PrecisionModes {
  import opened Basics
  import opened P = PointerSpeeds

  /** The slowest target of a kind of mouse. */
  predicate Slowest(saved: SavedSpeed, target: SpeedTarget) {
    match target
    case ScaledTo(v) => saved.Scaled? && v == MIN_SPEED
    case DpiTo(d) => saved.Sensor? && d.Lowest?
  }

  /** The target that gives a mouse back what is saved for it, or its default. */
  predicate GivesBack(saved: SavedSpeed, target: SpeedTarget) {
    match target
    case ScaledTo(v) => saved.Scaled? && (if saved.speed.Some? then v == saved.speed.value else v == DEFAULT_SPEED)
    case DpiTo(d) => saved.Sensor? && (if saved.dpi.Some? then d == Value(saved.dpi.value) else d == Default)
  }

  predicate NothingSaved(saved: SavedSpeed) { saved == Scaled(None) || saved == Sensor(None) }

  // --- A press and the press that undoes it ------------------------------------------------------

  /**
    Two presses and the report of the second write leave the modes, the debts and the mice as they were. The
    first write sets the slowest speed and lights the LED; the second gives the saved speed back, darkens the
    LED and has the next number.
  */
  lemma PressTwice(s: State, key: Option<Key>, press: PrecisionPress)
    requires Pressed(s, key, press).Some?
    requires var k := Pressed(s, key, press).value; k !in s.precision && k !in s.restore
    ensures var k := Pressed(s, key, press).value;
            var on := TogglePrecision(s, key, press);
            var off := TogglePrecision(on.state, key, press);
            && on.state.precision == s.precision + {k} && on.state.restore == s.restore
            && |on.writes| == 1 && |off.writes| == 1
            && Slowest(s.online[k].saved, on.writes[0].target) && on.writes[0].place.led == Some(true)
            && GivesBack(s.online[k].saved, off.writes[0].target) && off.writes[0].place.led == Some(false)
            && off.writes[0].place.ticket == on.writes[0].place.ticket + 1
            && off.writes[0].place.restore.Some?
            && var settled := Restored(off.state, off.writes[0].place.restore.value);
               settled.precision == s.precision && settled.restore == s.restore && settled.online == s.online
  {
    var k := Pressed(s, key, press).value;
    var on := TogglePrecision(s, key, press);
    var off := TogglePrecision(on.state, key, press);
    assert s.restore - {k} == s.restore && on.state.precision - {k} == s.precision;
    assert off.state.restore - {k} == s.restore;
  }

  /**
    Whom a press acts on: the mouse it names, or the selected one if it names none, if that is online, and a DPI
    button only a scaled one. The mode of that mouse flips, by one write on its route; any other press does nothing.
  */
  lemma PressActsOn(s: State, key: Option<Key>, press: PrecisionPress, k: Key)
    ensures var o := TogglePrecision(s, key, press);
            var acts := && (key == Some(k) || (key.None? && s.selected == Some(k)))
                        && k in s.online && (press.DpiButton? ==> s.online[k].saved.Scaled?);
            && (k in o.state.precision <==> if acts then k !in s.precision else k in s.precision)
            && (acts ==> |o.writes| == 1 && o.writes[0].place.route == s.online[k].route
                         && o.writes[0].place.ticket == s.Newest(s.online[k].route) + 1
                         && (k !in s.precision ==> Slowest(s.online[k].saved, o.writes[0].target) && k !in o.state.restore)
                         && (k in s.precision ==> GivesBack(s.online[k].saved, o.writes[0].target)
                                                  && o.writes[0].place.restore == o.state.Pending(k)
                                                  && k in o.state.restore && o.state.restore[k] == s.generation + 1))
            && (!acts ==> o.state.Pending(k) == s.Pending(k))
            && o.state.online == s.online && o.state.selected == s.selected
  {}

  /** A press that acts on no mouse changes nothing and writes nothing. */
  lemma PressActsOnNone(s: State, key: Option<Key>, press: PrecisionPress)
    ensures var k := if key.Some? then key else s.selected;
            k.None? || k.value !in s.online || (press.DpiButton? && !s.online[k.value].saved.Scaled?) ==>
              TogglePrecision(s, key, press) == Outcome(s, [])
  {}

  // --- The settings app ------------------------------------------------------------------------------

  lemma {:induction false} AppFoldEnds(s: State, order: seq<Key>, saved: SavedSpeed, k: Key)
    requires forall x :: x in order ==> x in s.online
    ensures var t := AppFold(s, order, saved).0;
            && t.online.Keys == s.online.Keys
            && (k in t.precision <==> k in s.precision && k !in order)
            && (k in t.restore <==> k in s.restore || (k in order && k in s.precision))
            && (k !in order ==> t.Pending(k) == s.Pending(k))
            && (k in s.online ==> t.online[k] == if k in order then s.online[k].(saved := saved) else s.online[k])
  {
    if order != [] {
      var init, last := order[..|order| - 1], order[|order| - 1];
      assert order == init + [last];
      AppFoldEnds(s, init, saved, k);
    }
  }

  /**
    A write of the settings app ends the mode of exactly the mice of its kind on its route, owes those that were
    slow a restore, and makes the value the one they return to. The other mice keep all they had.
  */
  lemma AppEndsExactly(s: State, route: DeviceRoute, saved: SavedSpeed, order: seq<Key>, k: Key)
    requires Enumerates(order, AppKeys(s, route, saved))
    ensures var t := AppWrite(s, route, saved, order).state;
            var hit := k in s.online && s.online[k].route == route && s.online[k].saved.Scaled? == saved.Scaled?;
            && (k in t.precision <==> k in s.precision && !hit)
            && (k in t.restore <==> k in s.restore || (hit && k in s.precision))
            && (k in t.online <==> k in s.online)
            && (hit ==> t.online[k] == OnlineMouse(route, saved))
            && (!hit ==> t.Pending(k) == s.Pending(k) && (k in s.online ==> t.online[k] == s.online[k]))
  {
    AppFoldEnds(s, order, saved, k);
    assert k in order <==> k in AppKeys(s, route, saved);
  }

  lemma {:induction false} AppFoldIssues(s: State, order: seq<Key>, saved: SavedSpeed)
    ensures AppFold(s, order, saved).0.issued == s.issued
  {
    if order != [] {
      AppFoldIssues(s, order[..|order| - 1], saved);
    }
  }

  /** One more mouse: a new debt of its own if it was on or owed, else the debt so far. */
  lemma AppOneMore(s: State, init: seq<Key>, last: Key, saved: SavedSpeed)
    requires last !in init && (forall x :: x in init ==> x in s.online) && last in s.online
    ensures var (t, owed) := AppFold(s, init + [last], saved);
            if last in s.precision || last in s.restore then owed.Some? && owed.value.key == last && t.Pending(last) == owed
            else owed == AppFold(s, init, saved).1
  {
    AppFoldEnds(s, init, saved, last);
    AppFoldNext(s, init, last, saved);
  }

  lemma AppStillOwes(s: State, init: seq<Key>, last: Key, saved: SavedSpeed, k: Key)
    requires k != last
    ensures AppFold(s, init + [last], saved).0.Pending(k) == AppFold(s, init, saved).0.Pending(k)
  {
    AppFoldNext(s, init, last, saved);
  }

  /** Whether the fold owes a restore, and whose. */
  lemma {:induction false} AppFoldCarries(s: State, order: seq<Key>, saved: SavedSpeed)
    requires forall i, j :: 0 <= i < j < |order| ==> order[i] != order[j]
    requires forall i :: 0 <= i < |order| ==> order[i] in s.online
    ensures var (t, owed) := AppFold(s, order, saved);
            if forall i :: 0 <= i < |order| ==> order[i] !in s.precision && order[i] !in s.restore then owed.None?
            else owed.Some? && owed.value.key in order && t.Pending(owed.value.key) == owed
  {
    if order != [] {
      var init, last := order[..|order| - 1], order[|order| - 1];
      assert order == init + [last];
      assert forall i :: 0 <= i < |init| ==> init[i] == order[i] && order[i] != last && order[i] in s.online;
      AppFoldCarries(s, init, saved);
      AppOneMore(s, init, last, saved);
      var owed := AppFold(s, init, saved).1;
      if owed.Some? {
        assert owed.value.key in init ==> owed.value.key != last;
        if owed.value.key in init { AppStillOwes(s, init, last, saved, owed.value.key); }
      }
    }
  }

  lemma AppOwesWhom(s: State, keys: set<Key>, order: seq<Key>, saved: SavedSpeed)
    requires Enumerates(order, keys) && keys <= s.online.Keys
    ensures var (t, owed) := AppFold(s, order, saved);
            && (owed.Some? <==> exists k :: k in keys && (k in s.precision || k in s.restore))
            && (owed.Some? ==> owed.value.key in keys && t.Pending(owed.value.key) == owed)
  {
    assert forall i :: 0 <= i < |order| ==> order[i] in order && order[i] in keys;
    AppFoldCarries(s, order, saved);
    if exists k :: k in keys && (k in s.precision || k in s.restore) {
      var k :| k in keys && (k in s.precision || k in s.restore);
      assert k in order;
    }
  }

  /** The app's own write: one, of its value, that carries the new debt of a mouse whose mode it ended, if there is one. */
  lemma AppWritesOnce(s: State, route: DeviceRoute, saved: SavedSpeed, order: seq<Key>)
    requires Enumerates(order, AppKeys(s, route, saved))
    ensures var o := AppWrite(s, route, saved, order);
            && |o.writes| == 1 && o.writes[0].place.route == route && GivesBack(saved, o.writes[0].target)
            && o.writes[0].place.ticket == s.Newest(route) + 1
            && var owed := o.writes[0].place.restore;
               && (owed.Some? <==> exists k :: k in AppKeys(s, route, saved) && (k in s.precision || k in s.restore))
               && (owed.Some? ==> owed.value.key in AppKeys(s, route, saved) && o.state.Pending(owed.value.key) == owed)
               && o.writes[0].place.led == (if owed.Some? then Some(false) else None)
  {
    AppOwesWhom(s, AppKeys(s, route, saved), order, saved);
    AppFoldIssues(s, order, saved);
  }

  /** What the app wrote is what precision mode returns to. */
  lemma AppValueIsReturnedTo(s: State, route: DeviceRoute, saved: SavedSpeed, order: seq<Key>, k: Key)
    requires Enumerates(order, AppKeys(s, route, saved)) && k in AppKeys(s, route, saved)
    ensures var t := AppWrite(s, route, saved, order).state;
            var on := TogglePrecision(t, Some(k), Assigned);
            var off := TogglePrecision(on.state, Some(k), Assigned);
            && k in on.state.precision && |off.writes| == 1
            && GivesBack(saved, off.writes[0].target) && off.writes[0].place.route == route
            && off.writes[0].place.ticket == off.state.Newest(route)
  {
    AppEndsExactly(s, route, saved, order, k);
  }

  // --- A config reload -------------------------------------------------------------------------------

  lemma {:induction false} ReloadMiceEnds(s: State, change: Key -> ReloadChange, mice: seq<SpeedMouse>, k: Key)
    ensures var t := ReloadMice(s, change, mice).state;
            var ended := k in s.precision && change(k).EndsPrecision() && exists i :: 0 <= i < |mice| && mice[i].key == k;
            && (k in t.precision <==> k in s.precision && !ended)
            && (k in t.restore <==> k in s.restore || ended)
            && (!ended ==> t.Pending(k) == s.Pending(k))
  {
    if mice != [] {
      var init, last := mice[..|mice| - 1], mice[|mice| - 1];
      ReloadMiceEnds(s, change, init, k);
      assert forall i :: 0 <= i < |init| ==> init[i] == mice[i];
      assert (exists i :: 0 <= i < |mice| && mice[i].key == k)
        <==> last.key == k || exists i :: 0 <= i < |init| && init[i].key == k by {
        if last.key == k { assert mice[|mice| - 1].key == k; }
      }
    }
  }

  lemma {:induction false} EndModesEnds(s: State, order: seq<Key>, k: Key)
    ensures var t := EndModes(s, order);
            && (k in t.precision <==> k in s.precision && k !in order)
            && (k in t.restore <==> k in s.restore || k in order)
            && (k !in order ==> t.Pending(k) == s.Pending(k))
  {
    if order != [] {
      assert order == order[..|order| - 1] + [order[|order| - 1]];
      EndModesEnds(s, order[..|order| - 1], k);
    }
  }

  /**
    A reload ends the mode of exactly the mice, online or not, whose speed or assignments it changed, and every
    one of them is owed a restore. All other modes and debts stay as they were.
  */
  lemma ReloadEndsExactly(s: State, change: Key -> ReloadChange, mice: seq<SpeedMouse>, order: seq<Key>, k: Key)
    requires Enumerates(order, ReloadOffline(ReloadMice(s, change, mice).state, change))
    ensures var t := Reload(s, change, mice, order).state;
            var ended := k in s.precision && (change(k).speed || change(k).assignments);
            && (k in t.precision <==> k in s.precision && !ended)
            && (k in t.restore <==> k in s.restore || ended)
            && (!ended ==> t.Pending(k) == s.Pending(k))
  {
    var mid := ReloadMice(s, change, mice).state;
    ReloadMiceEnds(s, change, mice, k);
    EndModesEnds(mid, order, k);
    assert k in order <==> k in ReloadOffline(mid, change);
  }

  /** `w` gives `m` back its speed and settles no debt but its own. */
  predicate Returns(m: SpeedMouse, w: SpeedWrite) {
    && w.place.route == m.route && GivesBack(m.saved, w.target)
    && (w.place.restore.Some? ==> w.place.restore.value.key == m.key)
  }

  /** Every write of a reload, over any mice, gives one of them its saved speed or its default, and settles no other debt. */
  lemma {:induction false} ReloadWritesGiveBack(s: State, change: Key -> ReloadChange, mice: seq<SpeedMouse>, i: nat)
    requires i < |ReloadMice(s, change, mice).writes|
    ensures exists j :: 0 <= j < |mice| && Returns(mice[j], ReloadMice(s, change, mice).writes[i])
  {
    if mice != [] {
      var init, last := mice[..|mice| - 1], mice[|mice| - 1];
      var before := ReloadMice(s, change, init);
      if i < |before.writes| {
        ReloadWritesGiveBack(s, change, init, i);
        var j :| 0 <= j < |init| && Returns(init[j], before.writes[i]);
        assert Returns(mice[j], before.writes[i]);
      } else {
        var one := ReloadOne(before.state, change(last.key), last);
        assert Returns(last, one.writes[0]) && mice[|mice| - 1] == last;
      }
    }
  }

  /** Mouse `m` gets a write: its mode ends, or its speed changed and it is owed or scaled with a saved speed. */
  predicate GetsWrite(s: State, change: ReloadChange, m: SpeedMouse) {
    || (m.key in s.precision && (change.speed || change.assignments))
    || (change.speed && (m.key in s.restore || (m.saved.Scaled? && m.saved.speed.Some?)))
  }

  /** The mice that get a write, in their order. */
  function Written(s: State, change: Key -> ReloadChange, mice: seq<SpeedMouse>): seq<SpeedMouse> {
    if mice == [] then [] else
    var m := mice[|mice| - 1];
    Written(s, change, mice[..|mice| - 1]) + if GetsWrite(s, change(m.key), m) then [m] else []
  }

  /** `w` goes to `m`, gives it back its speed, and carries what it owes in `t`, darkening the LED only then. */
  predicate WriteFor(t: State, m: SpeedMouse, w: SpeedWrite) {
    && w.place.route == m.route && GivesBack(m.saved, w.target) && w.place.restore == t.Pending(m.key)
    && w.place.led == (if w.place.restore.Some? then Some(false) else None)
  }

  /** The writes of `writes` on `route`. */
  function CountOn(route: DeviceRoute, writes: seq<SpeedWrite>): nat {
    if writes == [] then 0 else
    CountOn(route, writes[..|writes| - 1]) + if writes[|writes| - 1].place.route == route then 1 else 0
  }

  ghost predicate DistinctKeys(mice: seq<SpeedMouse>) {
    forall i, j :: 0 <= i < j < |mice| ==> mice[i].key != mice[j].key
  }

  /** The `i`-th write goes to the `i`-th mouse of `ms`, with the next number of its route. */
  ghost predicate WritesFor(s: State, t: State, ms: seq<SpeedMouse>, writes: seq<SpeedWrite>) {
    && |writes| == |ms|
    && (forall i :: 0 <= i < |ms| ==> WriteFor(t, ms[i], writes[i]))
    && (forall i :: 0 <= i < |writes| ==> Numbered(s, writes, i))
  }

  /** Write `i` has the next number of its route. */
  predicate Numbered(s: State, writes: seq<SpeedWrite>, i: nat)
    requires i < |writes|
  {
    var place := writes[i].place;
    place.ticket == s.Newest(place.route) + CountOn(place.route, writes[..i + 1])
  }

  lemma ReloadOneTouches(s: State, change: ReloadChange, x: SpeedMouse, k: Key)
    requires k != x.key
    ensures var t := ReloadOne(s, change, x).state;
            t.Pending(k) == s.Pending(k) && (k in t.precision <==> k in s.precision)
  {}

  lemma ReloadOneNumbers(s: State, change: ReloadChange, x: SpeedMouse, route: DeviceRoute)
    ensures var o := ReloadOne(s, change, x);
            o.state.Newest(route) == s.Newest(route) + CountOn(route, o.writes)
  {
    var o := ReloadOne(s, change, x);
    assert |o.writes| == 1 ==> o.writes[..0] == [];
  }

  lemma ReloadOneWrites(s: State, change: ReloadChange, x: SpeedMouse)
    requires s.precision !! s.restore.Keys
    ensures var o := ReloadOne(s, change, x);
            if GetsWrite(s, change, x)
            then |o.writes| == 1 && WriteFor(o.state, x, o.writes[0])
                 && o.writes[0].place.ticket == s.Newest(x.route) + 1
            else o.writes == []
    ensures var t := ReloadOne(s, change, x).state; t.precision !! t.restore.Keys
  {}

  lemma {:induction false} CountOnJoin(route: DeviceRoute, a: seq<SpeedWrite>, b: seq<SpeedWrite>)
    requires |b| <= 1
    ensures CountOn(route, a + b) == CountOn(route, a) + CountOn(route, b)
  {
    if |b| == 1 {
      assert (a + b)[..|a|] == a && b[..0] == [];
    } else {
      assert a + b == a;
    }
  }

  lemma {:induction false} WrittenAreMice(s: State, change: Key -> ReloadChange, mice: seq<SpeedMouse>, m: SpeedMouse)
    ensures m in Written(s, change, mice) <==> m in mice && GetsWrite(s, change(m.key), m)
  {
    if mice != [] {
      WrittenAreMice(s, change, mice[..|mice| - 1], m);
      assert mice == mice[..|mice| - 1] + [mice[|mice| - 1]];
    }
  }

  /** The mice of `mice` have their writes, and exactly those were numbered. */
  ghost predicate Served(s: State, change: Key -> ReloadChange, mice: seq<SpeedMouse>) {
    var o := ReloadMice(s, change, mice);
    && WritesFor(s, o.state, Written(s, change, mice), o.writes)
    && o.state.precision !! o.state.restore.Keys
    && forall r :: o.state.Newest(r) == s.Newest(r) + CountOn(r, o.writes)
  }

  lemma {:induction false} ReloadMiceWrite(s: State, change: Key -> ReloadChange, mice: seq<SpeedMouse>)
    requires s.precision !! s.restore.Keys && DistinctKeys(mice)
    ensures Served(s, change, mice)
  {
    if mice != [] {
      var init, x := mice[..|mice| - 1], mice[|mice| - 1];
      assert mice == init + [x];
      ReloadMiceWrite(s, change, init);
      ServesOneMore(s, change, init, x);
    }
  }

  /** Before its turn, a mouse is in the mode and in debt as it was at first. */
  lemma NotYetReloaded(s: State, change: Key -> ReloadChange, init: seq<SpeedMouse>, x: SpeedMouse)
    requires forall i :: 0 <= i < |init| ==> init[i].key != x.key
    ensures GetsWrite(ReloadMice(s, change, init).state, change(x.key), x) <==> GetsWrite(s, change(x.key), x)
  {
    ReloadMiceEnds(s, change, init, x.key);
  }

  /** The writes so far still carry what their mice owe. */
  lemma StillCarry(s: State, change: Key -> ReloadChange, init: seq<SpeedMouse>, x: SpeedMouse, i: nat)
    requires forall j :: 0 <= j < |init| ==> init[j].key != x.key
    requires var o := ReloadMice(s, change, init);
             i < |Written(s, change, init)| == |o.writes| && WriteFor(o.state, Written(s, change, init)[i], o.writes[i])
    ensures var o := ReloadMice(s, change, init);
            WriteFor(ReloadOne(o.state, change(x.key), x).state, Written(s, change, init)[i], o.writes[i])
  {
    var m := Written(s, change, init)[i];
    WrittenAreMice(s, change, init, m);
    ReloadOneTouches(ReloadMice(s, change, init).state, change(x.key), x, m.key);
  }

  /** The numbers count up through one more mouse. */
  lemma StillNumbered(s: State, a: seq<SpeedWrite>, b: seq<SpeedWrite>, i: nat)
    requires |b| <= 1 && i < |a| + |b| && (i < |a| ==> Numbered(s, a, i))
    requires b != [] ==> b[0].place.ticket == s.Newest(b[0].place.route) + CountOn(b[0].place.route, a) + 1
    ensures Numbered(s, a + b, i)
  {
    if i < |a| {
      assert (a + b)[..i + 1] == a[..i + 1];
    } else {
      assert (a + b)[..i + 1] == a + b && b[..0] == [];
      CountOnJoin(b[0].place.route, a, b);
    }
  }

  lemma CountsOneMore(s: State, change: Key -> ReloadChange, init: seq<SpeedMouse>, x: SpeedMouse, r: DeviceRoute)
    requires var o := ReloadMice(s, change, init); o.state.Newest(r) == s.Newest(r) + CountOn(r, o.writes)
    ensures var o := ReloadMice(s, change, init);
            var one := ReloadOne(o.state, change(x.key), x);
            one.state.Newest(r) == s.Newest(r) + CountOn(r, o.writes + one.writes)
  {
    var o := ReloadMice(s, change, init);
    ReloadOneNumbers(o.state, change(x.key), x, r);
    CountOnJoin(r, o.writes, ReloadOne(o.state, change(x.key), x).writes);
  }

  lemma ServesOneMore(s: State, change: Key -> ReloadChange, init: seq<SpeedMouse>, x: SpeedMouse)
    requires DistinctKeys(init + [x]) && Served(s, change, init)
    ensures Served(s, change, init + [x])
  {
    var mice := init + [x];
    assert mice[..|init|] == init && mice[|init|] == x;
    assert forall i :: 0 <= i < |init| ==> init[i] == mice[i] && mice[i].key != x.key;
    var before := ReloadMice(s, change, init);
    var one := ReloadOne(before.state, change(x.key), x);
    NotYetReloaded(s, change, init, x);
    ReloadOneWrites(before.state, change(x.key), x);
    forall i | 0 <= i < |before.writes| ensures WriteFor(one.state, Written(s, change, init)[i], before.writes[i]) {
      StillCarry(s, change, init, x, i);
    }
    forall i | 0 <= i < |before.writes + one.writes| ensures Numbered(s, before.writes + one.writes, i) {
      StillNumbered(s, before.writes, one.writes, i);
    }
    forall r ensures one.state.Newest(r) == s.Newest(r) + CountOn(r, before.writes + one.writes) {
      CountsOneMore(s, change, init, x, r);
    }
  }

  /**
    A reload writes to exactly the online mice whose mode it ends, and to those whose speed changed and that are owed
    or scaled with a saved speed: one write each, in their order, that gives the mouse its speed back, carries
    whatever it then owes and has the next number of its route.
  */
  lemma ReloadWritesExactly(s: State, change: Key -> ReloadChange, mice: seq<SpeedMouse>, order: seq<Key>)
    requires s.precision !! s.restore.Keys && DistinctKeys(mice)
    requires Enumerates(order, ReloadOffline(ReloadMice(s, change, mice).state, change))
    ensures var o := Reload(s, change, mice, order);
            WritesFor(s, o.state, Written(s, change, mice), o.writes)
  {
    ReloadMiceWrite(s, change, mice);
    var mid := ReloadMice(s, change, mice).state;
    var ms, t := Written(s, change, mice), EndModes(mid, order);
    forall i | 0 <= i < |ms| ensures t.Pending(ms[i].key) == mid.Pending(ms[i].key) {
      assert ms[i] in ms;
      WrittenAreMice(s, change, mice, ms[i]);
      ReloadMiceEnds(s, change, mice, ms[i].key);
      assert ms[i].key !in ReloadOffline(mid, change);
      EndModesEnds(mid, order, ms[i].key);
    }
  }

  // --- Presets and reconnects --------------------------------------------------------------------------

  /**
    A preset ends the mode of the DPI mouse it finds and no other, its write carries whatever that mouse then
    owes, and the report of that write settles it. The speed to return to stays.
  */
  lemma PresetSettles(s: State, route: DeviceRoute, found: Option<Key>, dpi: Dpi, k: Key)
    requires s.precision !! s.restore.Keys && Finds(found, PresetKeys(s, route))
    ensures var o := PresetWrite(s, route, found, dpi);
            && |o.writes| == 1 && o.state.online == s.online
            && var owed := o.writes[0].place.restore;
               var t := if owed.Some? then Restored(o.state, owed.value) else o.state;
               && (k in o.state.precision <==> k in s.precision && found != Some(k))
               && (found == Some(k) ==> k !in t.precision && k !in t.restore)
               && (found != Some(k) ==> t.Pending(k) == s.Pending(k))
               && o.writes[0].place.route == route && o.writes[0].target == DpiTo(Value(dpi))
               && (owed.Some? <==> found.Some? && (found.value in s.precision || found.value in s.restore))
               && o.writes[0].place.led == (if owed.Some? then Some(false) else None)
  {}

  /**
    A shift's restore gets a place, and takes over the debt its own low write carries, unless the mode came on again
    or ended anew since: `own` is that debt, `on` and `anew` the states after the mode came on, and after it also ended.
  */
  lemma ShiftRestoreIsDecided(s: State, route: DeviceRoute, k: Key, dpi: Dpi)
    requires k in s.online && s.online[k].route == route && s.online[k].saved.Sensor? && s.precision !! s.restore.Keys
    requires forall x :: x in s.restore ==> s.restore[x] <= s.generation
    ensures var low := PresetWrite(s, route, Some(k), dpi);
            var own := low.writes[0].place.restore;
            var on := TogglePrecision(low.state, Some(k), Assigned).state;
            var anew := TogglePrecision(on, Some(k), Assigned).state;
            && (own.Some? <==> k in s.precision || k in s.restore)
            && own == low.state.Pending(k) && ShiftMayRestore(low.state, k, own)
            && (own.Some? ==> ShiftMayRestore(Restored(low.state, own.value), k, own))
            && !ShiftMayRestore(on, k, own) && !ShiftMayRestore(anew, k, own)
  {}

  /** A reconnect changes no mode and no debt, and writes nothing exactly when nothing is on, owed or saved. */
  lemma ReconnectWritesOrNot(s: State, key: Key, route: DeviceRoute, saved: SavedSpeed)
    ensures var o := Reapply(s, key, route, saved);
            && o.state == s.(issued := o.state.issued) && |o.writes| <= 1
            && (o.writes == [] <==> key !in s.precision && key !in s.restore && NothingSaved(saved))
  {}

  /** What a reconnect writes: the speed the mouse should then have, with whatever it owes. */
  lemma ReconnectWritesItsSpeed(s: State, key: Key, route: DeviceRoute, saved: SavedSpeed)
    requires s.precision !! s.restore.Keys && Reapply(s, key, route, saved).writes != []
    ensures var o := Reapply(s, key, route, saved);
            && |o.writes| == 1 && o.writes[0].place.ticket == o.state.Newest(route) == s.Newest(route) + 1
            && o.writes[0].place.restore == s.Pending(key)
            && if key in s.precision then Slowest(saved, o.writes[0].target) else GivesBack(saved, o.writes[0].target)
  {}
}
