/**
  Per-transport turns behind weak references (hardware.rs): every handle to a turn for the slots of one
  physical transport is a handle to the same turn, although strong counts fall at any moment, also
  between the pruning of dead entries and the search through the rest.
*/
module TransportTurns {
  import opened Basics

  datatype TransportKey =
    | BoltKey(uid: string)
    | UnifyingKey(uid: string)
    | DirectKey(vendorId: nat, productId: nat)
    | RawKey(vendorId: nat, productId: nat, usagePage: nat, usageId: nat, identity: string)

  function KeyOf(route: DeviceRoute): TransportKey {
    match route
    case Bolt(uid, _) => BoltKey(uid)
    case Unifying(uid, _) => UnifyingKey(uid)
    case Direct(v, p) => DirectKey(v, p)
    case RawHid(v, p, page, id, identity) => RawKey(v, p, page, id, identity)
  }

  /**
    Two routes share a physical transport: slots of one receiver do, whatever their numbers; other devices only
    with themselves.
  */
  predicate SameTransport(a: DeviceRoute, b: DeviceRoute) {
    match a
    case Bolt(uid, _) => b.Bolt? && b.receiverUid == uid
    case Unifying(uid, _) => b.Unifying? && b.receiverUid == uid
    case Direct(v, p) => b.Direct? && b.vendorId == v && b.productId == p
    case RawHid(v, p, page, id, identity) =>
      b.RawHid? && b.vendorId == v && b.productId == p && b.usagePage == page && b.usageId == id && b.identity == identity
  }

  lemma KeysAreTransports(a: DeviceRoute, b: DeviceRoute)
    ensures KeyOf(a) == KeyOf(b) <==> SameTransport(a, b)
  {}

  type Turn = nat
  type HandleId = nat

  datatype Entry = Entry(key: TransportKey, turn: Turn)
  datatype Handle = Handle(route: DeviceRoute, turn: Turn)

  /** Where the call that holds the mutex stands, if any. */
  datatype Call =
    | NoCall
    | Pruning(h: HandleId, route: DeviceRoute, kept: seq<Entry>, rest: seq<Entry>)
    | Searching(h: HandleId, route: DeviceRoute, i: nat)

  datatype World = World(entries: seq<Entry>, handles: map<HandleId, Handle>, next: Turn, call: Call)

  const START := World([], map[], 0, NoCall)

  datatype Event =
    | Ask(h: HandleId, route: DeviceRoute)
    | PruneNext
    | SearchNext
    | DropHandles(hs: set<HandleId>)
    | CloneHandle(h: HandleId, copy: HandleId)

  /** The strong count of `turn` is not zero. */
  predicate Live(w: World, turn: Turn) { exists h :: h in w.handles && w.handles[h].turn == turn }

  ghost predicate Enabled(w: World, e: Event) {
    match e
    case Ask(h, _) => w.call.NoCall? && h !in w.handles
    case PruneNext => w.call.Pruning?
    case SearchNext => w.call.Searching? && w.call.i <= |w.entries| && w.call.h !in w.handles
    case DropHandles(_) => true
    case CloneHandle(h, copy) => h in w.handles && copy !in w.handles
  }

  ghost function Step(w: World, e: Event): World
    requires Enabled(w, e)
  {
    match e
    case Ask(h, route) => w.(call := Pruning(h, route, [], w.entries))
    case PruneNext =>
      if w.call.rest == [] then w.(entries := w.call.kept, call := Searching(w.call.h, w.call.route, 0))
      else
        var entry := w.call.rest[0];
        var kept := if Live(w, entry.turn) then w.call.kept + [entry] else w.call.kept;
        w.(call := Pruning(w.call.h, w.call.route, kept, w.call.rest[1..]))
    case SearchNext =>
      var Searching(h, route, i) := w.call;
      if i == |w.entries| then
        w.(entries := w.entries + [Entry(KeyOf(route), w.next)], handles := w.handles[h := Handle(route, w.next)],
           next := w.next + 1, call := NoCall)
      else if w.entries[i].key == KeyOf(route) && Live(w, w.entries[i].turn) then
        w.(handles := w.handles[h := Handle(route, w.entries[i].turn)], call := NoCall)
      else w.(call := Searching(h, route, i + 1))
    case DropHandles(hs) => w.(handles := w.handles - hs)
    case CloneHandle(h, copy) => w.(handles := w.handles[copy := w.handles[h]])
  }

  /** The entries not removed yet. */
  function Entries(w: World): seq<Entry> {
    if w.call.Pruning? then w.call.kept + w.call.rest else w.entries
  }

  ghost predicate Inv(w: World) {
    var entries := Entries(w);
    && (forall h :: h in w.handles ==> Entry(KeyOf(w.handles[h].route), w.handles[h].turn) in entries)
    && (forall e :: e in entries ==> e.turn < w.next)
    && (forall e, f :: e in entries && f in entries && e.turn == f.turn ==> e == f)
    && (forall h, k :: h in w.handles && k in w.handles && KeyOf(w.handles[h].route) == KeyOf(w.handles[k].route)
          ==> w.handles[h].turn == w.handles[k].turn)
    && (w.call.Searching? ==>
          && w.call.i <= |w.entries|
          && forall j :: 0 <= j < w.call.i && w.entries[j].key == KeyOf(w.call.route) ==> !Live(w, w.entries[j].turn))
  }

  /** Entries may go as long as no live one does. */
  lemma FewerEntriesKeep(w: World, w': World)
    requires Inv(w) && w'.handles == w.handles && w'.next == w.next && !w'.call.Searching?
    requires forall e :: e in Entries(w') ==> e in Entries(w)
    requires forall e :: e in Entries(w) && Live(w, e.turn) ==> e in Entries(w')
    ensures Inv(w')
  {
    forall h | h in w'.handles
      ensures Entry(KeyOf(w'.handles[h].route), w'.handles[h].turn) in Entries(w')
    {
      assert Live(w, w.handles[h].turn);
    }
  }

  lemma PruneOneKeeps(w: World)
    requires Inv(w) && Enabled(w, PruneNext) && w.call.rest != []
    ensures Inv(Step(w, PruneNext))
  {
    PrunedEntries(w);
    FewerEntriesKeep(w, Step(w, PruneNext));
  }

  lemma PrunedEntries(w: World)
    requires w.call.Pruning? && w.call.rest != []
    ensures forall e :: e in Entries(Step(w, PruneNext)) ==> e in Entries(w)
    ensures forall e :: e in Entries(w) && Live(w, e.turn) ==> e in Entries(Step(w, PruneNext))
  {
    var entry := w.call.rest[0];
    var kept, rest := w.call.kept, w.call.rest[1..];
    assert w.call.rest == [entry] + rest;
    if Live(w, entry.turn) {
      assert (kept + [entry]) + rest == kept + ([entry] + rest);
    } else {
      DropDead(kept, entry, rest);
    }
  }

  lemma PruneKeeps(w: World)
    requires Inv(w) && Enabled(w, PruneNext)
    ensures Inv(Step(w, PruneNext))
  {
    if w.call.rest == [] {
      assert w.call.kept + [] == w.call.kept;
    } else {
      PruneOneKeeps(w);
    }
  }

  lemma DropDead(kept: seq<Entry>, dead: Entry, rest: seq<Entry>)
    ensures forall e :: e in kept + ([dead] + rest) ==> e == dead || e in kept + rest
    ensures forall e :: e in kept + rest ==> e in kept + ([dead] + rest)
  {}

  /** A finished search: every entry of the transport is dead, so a fresh turn is the only live one. */
  lemma CreateKeeps(w: World)
    requires Inv(w) && Enabled(w, SearchNext) && w.call.i == |w.entries|
    ensures Inv(Step(w, SearchNext))
  {
    forall h | h in w.handles ensures KeyOf(w.handles[h].route) != KeyOf(w.call.route) { NoneLeft(w, h); }
  }

  lemma NoneLeft(w: World, h: HandleId)
    requires Inv(w) && w.call.Searching? && w.call.i == |w.entries| && h in w.handles
    ensures KeyOf(w.handles[h].route) != KeyOf(w.call.route)
  {
    assert Live(w, w.handles[h].turn);
    assert Entry(KeyOf(w.handles[h].route), w.handles[h].turn) in w.entries;
  }

  /** A live entry of the transport is shared by every handle of that transport. */
  lemma JoinKeeps(w: World, entry: Entry)
    requires Inv(w) && Enabled(w, SearchNext) && entry in w.entries
    requires entry.key == KeyOf(w.call.route) && Live(w, entry.turn)
    ensures Inv(w.(handles := w.handles[w.call.h := Handle(w.call.route, entry.turn)], call := NoCall))
  {
    var k :| k in w.handles && w.handles[k].turn == entry.turn;
    assert Entry(KeyOf(w.handles[k].route), entry.turn) == entry;
    assert forall h :: h in w.handles && KeyOf(w.handles[h].route) == entry.key ==> w.handles[h].turn == entry.turn;
  }

  lemma SkipKeeps(w: World)
    requires Inv(w) && Enabled(w, SearchNext) && w.call.i < |w.entries|
    requires !(w.entries[w.call.i].key == KeyOf(w.call.route) && Live(w, w.entries[w.call.i].turn))
    ensures Inv(w.(call := Searching(w.call.h, w.call.route, w.call.i + 1)))
  {
    assert forall t :: Live(w.(call := Searching(w.call.h, w.call.route, w.call.i + 1)), t) == Live(w, t);
  }

  lemma SearchKeeps(w: World)
    requires Inv(w) && Enabled(w, SearchNext)
    ensures Inv(Step(w, SearchNext))
  {
    if w.call.i == |w.entries| {
      CreateKeeps(w);
    } else {
      var entry := w.entries[w.call.i];
      if entry.key == KeyOf(w.call.route) && Live(w, entry.turn) {
        JoinKeeps(w, entry);
      } else {
        SkipKeeps(w);
      }
    }
  }

  lemma HandleKeeps(w: World, e: Event)
    requires Inv(w) && Enabled(w, e) && (e.DropHandles? || e.CloneHandle?)
    ensures Inv(Step(w, e))
  {
    assert forall t :: Live(Step(w, e), t) ==> Live(w, t);
  }

  lemma StepKeeps(w: World, e: Event)
    requires Inv(w) && Enabled(w, e)
    ensures Inv(Step(w, e))
  {
    match e
    case Ask(_, _) => assert [] + w.entries == w.entries;
    case PruneNext => PruneKeeps(w);
    case SearchNext => SearchKeeps(w);
    case DropHandles(_) => HandleKeeps(w, e);
    case CloneHandle(_, _) => HandleKeeps(w, e);
  }

  ghost predicate Possible(w: World, es: seq<Event>)
    decreases |es|
  {
    es == [] || (Enabled(w, es[0]) && Possible(Step(w, es[0]), es[1..]))
  }

  ghost function Run(w: World, es: seq<Event>): World
    requires Possible(w, es)
    decreases |es|
  {
    if es == [] then w else Run(Step(w, es[0]), es[1..])
  }

  lemma {:induction false} InvAlongRun(w: World, es: seq<Event>)
    requires Inv(w) && Possible(w, es)
    ensures Inv(Run(w, es))
    decreases |es|
  {
    if es != [] {
      StepKeeps(w, es[0]);
      InvAlongRun(Step(w, es[0]), es[1..]);
    }
  }

  /** Two live handles are the same turn exactly when their routes share a physical transport. */
  lemma OneTurnPerTransport(es: seq<Event>, h: HandleId, k: HandleId)
    requires Possible(START, es)
    requires h in Run(START, es).handles && k in Run(START, es).handles
    ensures var handles := Run(START, es).handles;
            handles[h].turn == handles[k].turn <==> SameTransport(handles[h].route, handles[k].route)
  {
    InvAlongRun(START, es);
    InvMeansOneTurn(Run(START, es), h, k);
  }

  lemma {:induction false} RunAppend(w: World, es: seq<Event>, e: Event)
    requires Possible(w, es) && Enabled(Run(w, es), e)
    ensures Possible(w, es + [e]) && Run(w, es + [e]) == Step(Run(w, es), e)
    decreases |es|
  {
    if es == [] {
      assert [e][1..] == [] && es + [e] == [e];
    } else {
      RunAppend(Step(w, es[0]), es[1..], e);
      assert (es + [e])[1..] == es[1..] + [e];
    }
  }

  lemma InvMeansOneTurn(w: World, h: HandleId, k: HandleId)
    requires Inv(w) && h in w.handles && k in w.handles
    ensures w.handles[h].turn == w.handles[k].turn <==> SameTransport(w.handles[h].route, w.handles[k].route)
  {
    KeysAreTransports(w.handles[h].route, w.handles[k].route);
    assert Entry(KeyOf(w.handles[h].route), w.handles[h].turn) in Entries(w);
    assert Entry(KeyOf(w.handles[k].route), w.handles[k].turn) in Entries(w);
  }

  /** The vector of weak entries; `handles` are the strong references that others hold. */
  class Turns {
    var entries: seq<Entry>
    var next: Turn
    var handles: map<HandleId, Handle>
    ghost var call: Call
    ghost var run: seq<Event>

    ghost function Model(): World reads this { World(entries, handles, next, call) }

    /** The fields are those of the world the run so far has reached. */
    ghost predicate Valid() reads this { Possible(START, run) && Run(START, run) == Model() }

    constructor ()
      ensures Valid() && Model() == START
    {
      entries, next, handles, call, run := [], 0, map[], NoCall, [];
    }

    /** A step of the call, or of those that hold handles. */
    ghost method Records(e: Event)
      requires Possible(START, run) && Enabled(Run(START, run), e)
      modifies this`run
      ensures run == old(run) + [e] && Possible(START, run) && Run(START, run) == Step(Run(START, old(run)), e)
    {
      RunAppend(START, run, e);
      run := run + [e];
    }

    /** Others drop the handles `hs`. */
    method Drop(hs: set<HandleId>)
      requires Valid()
      modifies this`handles, this`run
      ensures Valid() && Model() == Step(old(Model()), DropHandles(hs))
    {
      Records(DropHandles(hs));
      handles := handles - hs;
    }

    function IsLive(turn: Turn): (live: bool)
      reads this
      ensures live == Live(Model(), turn)
    {
      exists h :: h in handles && handles[h].turn == turn
    }

    /** The prune looks at one entry, after others dropped `hs`. */
    method PruneOne(hs: set<HandleId>)
      requires Valid() && call.Pruning? && call.rest != []
      modifies this`handles, this`run, this`call
      ensures Valid() && Model() == Step(Step(old(Model()), DropHandles(hs)), PruneNext)
    {
      Drop(hs);
      ghost var Pruning(h, route, kept, rest) := call;
      Records(PruneNext);
      call := Pruning(h, route, if IsLive(rest[0].turn) then kept + [rest[0]] else kept, rest[1..]);
    }

    /** Removes the entries that are dead as it looks at them; `drops(i)` are dropped before its i-th look. */
    method Prune(h: HandleId, route: DeviceRoute, drops: nat -> set<HandleId>)
      requires Valid() && call.NoCall? && h !in handles
      modifies this
      ensures Valid() && call == Searching(h, route, 0) && h !in handles
    {
      Records(Ask(h, route));
      call := Pruning(h, route, [], entries);
      var kept: seq<Entry> := [];
      var all := entries;
      for i := 0 to |all|
        invariant Valid() && entries == all && call == Pruning(h, route, kept, all[i..]) && h !in handles
      {
        PruneOne(drops(i));
        if IsLive(all[i].turn) {
          kept := kept + [all[i]];
        }
        assert all[i..][1..] == all[i + 1..];
      }
      Records(PruneNext);
      entries, call := kept, Searching(h, route, 0);
    }

    /** The search looks at entry `i`, after others dropped `hs`. */
    method SearchOne(h: HandleId, route: DeviceRoute, i: nat, hs: set<HandleId>) returns (found: Option<Turn>)
      requires Valid() && call == Searching(h, route, i) && i < |entries| && h !in handles
      modifies this`handles, this`run, this`call
      ensures Valid()
      ensures found.Some? ==> call.NoCall? && h in handles && handles[h] == Handle(route, found.value)
      ensures found.None? ==> call == Searching(h, route, i + 1) && h !in handles
    {
      Drop(hs);
      Records(SearchNext);
      if entries[i].key == KeyOf(route) && IsLive(entries[i].turn) {
        handles := handles[h := Handle(route, entries[i].turn)];
        call := NoCall;
        return Some(entries[i].turn);
      }
      call := Searching(h, route, i + 1);
      return None;
    }

    /** No entry of the transport was alive: a new turn is pushed. */
    method PushNew(h: HandleId, route: DeviceRoute) returns (turn: Turn)
      requires Valid() && call == Searching(h, route, |entries|) && h !in handles
      modifies this
      ensures Valid() && call.NoCall? && h in handles && handles[h] == Handle(route, turn)
    {
      Records(SearchNext);
      turn := next;
      entries := entries + [Entry(KeyOf(route), turn)];
      handles, next, call := handles[h := Handle(route, turn)], next + 1, NoCall;
    }

    /** The turn of the transport of `route`, handed to `h`: the same one every live handle of it has. */
    method TurnFor(h: HandleId, route: DeviceRoute, drops: nat -> set<HandleId>) returns (turn: Turn)
      requires Valid() && call.NoCall? && h !in handles
      modifies this
      ensures Valid() && call.NoCall? && h in handles && handles[h] == Handle(route, turn)
      ensures forall k :: k in handles ==> (handles[k].turn == turn <==> SameTransport(handles[k].route, route))
    {
      Prune(h, route, drops);
      var found: Option<Turn> := None;
      var i, all := 0, entries;
      while i < |all| && found.None?
        invariant Valid() && i <= |all| && entries == all
        invariant found.Some? ==> call.NoCall? && h in handles && handles[h] == Handle(route, found.value)
        invariant found.None? ==> call == Searching(h, route, i) && h !in handles
      {
        found := SearchOne(h, route, i, drops(|all| + i));
        i := i + 1;
      }
      if found.Some? {
        turn := found.value;
      } else {
        turn := PushNew(h, route);
      }
      OneTurn(h);
    }

    lemma OneTurn(h: HandleId)
      requires Valid() && h in handles
      ensures forall k :: k in handles ==>
                (handles[k].turn == handles[h].turn <==> SameTransport(handles[k].route, handles[h].route))
    {
      InvAlongRun(START, run);
      forall k | k in handles
        ensures handles[k].turn == handles[h].turn <==> SameTransport(handles[k].route, handles[h].route)
      {
        InvMeansOneTurn(Model(), k, h);
      }
    }
  }
}
