/**
  The recently frontmost applications (observable.rs): a list edited in place and cut to a bounded length
  on every update equals what the whole history of updates says.
*/
module RecentApps {
  import opened Basics

  const RECENT_APPS: nat := 12

  /** An application by identifier and display name. */
  datatype App = App(id: string, name: string)

  /** Identifiers of OpenLogi's own processes; the profile picker never offers them. */
  type OwnIds = set<string>

  datatype Foreground = Foreground(current: Option<App>, recent: seq<App>, generation: nat)

  const INITIAL := Foreground(None, [], 1)

  function Without(apps: seq<App>, id: string): seq<App> {
    if apps == [] then []
    else if apps[0].id == id then Without(apps[1..], id)
    else [apps[0]] + Without(apps[1..], id)
  }

  function Cut(apps: seq<App>): seq<App> { if |apps| <= RECENT_APPS then apps else apps[..RECENT_APPS] }

  predicate Counts(own: OwnIds, app: Option<App>) { app.Some? && app.value.id !in own }

  function SetForeground(own: OwnIds, f: Foreground, app: Option<App>): Foreground {
    if f.current == app then f else
    Foreground(app,
               if Counts(own, app) then Cut([app.value] + Without(f.recent, app.value.id)) else f.recent,
               f.generation + 1)
  }

  function After(own: OwnIds, h: seq<Option<App>>): Foreground
    decreases |h|
  {
    if h == [] then INITIAL else SetForeground(own, After(own, h[..|h| - 1]), h[|h| - 1])
  }

  // --- The history specification ------------------------------------------------------------------

  /** The last update of `h` that published `id`, if any. */
  function LastOf(h: seq<Option<App>>, id: string): int
    decreases |h|
  {
    if h == [] then -1
    else if h[|h| - 1].Some? && h[|h| - 1].value.id == id then |h| - 1
    else LastOf(h[..|h| - 1], id)
  }

  /**
    `apps` lists the applications of `h` that are not OpenLogi's own, each once, as last published, the most
    recent first.
  */
  ghost predicate ByRecency(own: OwnIds, h: seq<Option<App>>, apps: seq<App>) {
    AsLastPublished(own, h, apps) && NewestFirst(h, apps) && ListsAll(own, h, apps)
  }

  ghost predicate AsLastPublished(own: OwnIds, h: seq<Option<App>>, apps: seq<App>) {
    forall i :: 0 <= i < |apps| ==>
      apps[i].id !in own && 0 <= LastOf(h, apps[i].id) < |h| && h[LastOf(h, apps[i].id)] == Some(apps[i])
  }

  ghost predicate NewestFirst(h: seq<Option<App>>, apps: seq<App>) {
    forall i, j :: 0 <= i < j < |apps| ==> LastOf(h, apps[i].id) > LastOf(h, apps[j].id)
  }

  ghost predicate Lists(apps: seq<App>, id: string) { exists i :: 0 <= i < |apps| && apps[i].id == id }

  ghost predicate ListsAll(own: OwnIds, h: seq<Option<App>>, apps: seq<App>) {
    forall k :: 0 <= k < |h| && Counts(own, h[k]) ==> Lists(apps, h[k].value.id)
  }

  /** The unbounded list. */
  function Recency(own: OwnIds, h: seq<Option<App>>): seq<App>
    decreases |h|
  {
    if h == [] then [] else
    var before, app := Recency(own, h[..|h| - 1]), h[|h| - 1];
    if Counts(own, app) then [app.value] + Without(before, app.value.id) else before
  }

  lemma {:induction false} WithoutMembers(apps: seq<App>, id: string)
    ensures |Without(apps, id)| <= |apps|
    ensures forall x :: x in Without(apps, id) <==> x in apps && x.id != id
  {
    if apps != [] {
      WithoutMembers(apps[1..], id);
      assert apps == [apps[0]] + apps[1..];
    }
  }

  /** Removal keeps the order. */
  lemma {:induction false} WithoutOrder(h: seq<Option<App>>, apps: seq<App>, id: string)
    requires NewestFirst(h, apps)
    ensures NewestFirst(h, Without(apps, id))
  {
    if apps != [] {
      var r := Without(apps[1..], id);
      WithoutOrder(h, apps[1..], id);
      assert forall x :: x in apps[1..] ==> LastOf(h, apps[0].id) > LastOf(h, x.id);
      WithoutMembers(apps[1..], id);
      NewerInFront(h, apps[0], r);
    }
  }

  lemma NewerInFront(h: seq<Option<App>>, app: App, rest: seq<App>)
    requires NewestFirst(h, rest) && forall x :: x in rest ==> LastOf(h, app.id) > LastOf(h, x.id)
    ensures NewestFirst(h, [app] + rest)
  {
    var apps := [app] + rest;
    assert forall i :: 1 <= i < |apps| ==> apps[i] == rest[i - 1] && rest[i - 1] in rest;
  }

  lemma ListsAfter(own: OwnIds, h: seq<Option<App>>)
    requires h != [] && ListsAll(own, h[..|h| - 1], Recency(own, h[..|h| - 1]))
    ensures ListsAll(own, h, Recency(own, h))
  {
    var init, app := h[..|h| - 1], h[|h| - 1];
    var before, apps := Recency(own, init), Recency(own, h);
    forall k | 0 <= k < |h| && Counts(own, h[k]) ensures Lists(apps, h[k].value.id) {
      if Counts(own, app) {
        if h[k].value.id == app.value.id {
          assert apps[0].id == h[k].value.id;
        } else {
          assert init[k] == h[k];
          var i :| 0 <= i < |before| && before[i].id == h[k].value.id;
          WithoutMembers(before, app.value.id);
          assert before[i] in Without(before, app.value.id) && before[i] in apps;
        }
      } else {
        assert init[k] == h[k];
      }
    }
  }

  /** A new update goes in front of the others. */
  lemma InFront(own: OwnIds, h: seq<Option<App>>, rest: seq<App>)
    requires h != [] && Counts(own, h[|h| - 1])
    requires AsLastPublished(own, h[..|h| - 1], rest) && NewestFirst(h[..|h| - 1], rest)
    requires forall i :: 0 <= i < |rest| ==> rest[i].id != h[|h| - 1].value.id
    ensures AsLastPublished(own, h, [h[|h| - 1].value] + rest) && NewestFirst(h, [h[|h| - 1].value] + rest)
  {
    var apps := [h[|h| - 1].value] + rest;
    assert forall i :: 0 <= i < |rest| ==> LastOf(h, rest[i].id) == LastOf(h[..|h| - 1], rest[i].id);
    assert forall i :: 1 <= i < |apps| ==> apps[i] == rest[i - 1];
  }

  lemma OrderAfter(own: OwnIds, h: seq<Option<App>>)
    requires h != [] && Counts(own, h[|h| - 1])
    requires AsLastPublished(own, h[..|h| - 1], Recency(own, h[..|h| - 1]))
    requires NewestFirst(h[..|h| - 1], Recency(own, h[..|h| - 1]))
    ensures AsLastPublished(own, h, Recency(own, h)) && NewestFirst(h, Recency(own, h))
  {
    var init, id := h[..|h| - 1], h[|h| - 1].value.id;
    var before := Recency(own, init);
    var rest := Without(before, id);
    WithoutMembers(before, id);
    WithoutOrder(init, before, id);
    assert forall i :: 0 <= i < |rest| ==> rest[i] in rest;
    InFront(own, h, rest);
  }

  lemma {:induction false} RecencyIsByRecency(own: OwnIds, h: seq<Option<App>>)
    ensures ByRecency(own, h, Recency(own, h))
    decreases |h|
  {
    if h != [] {
      var init := h[..|h| - 1];
      RecencyIsByRecency(own, init);
      ListsAfter(own, h);
      if Counts(own, h[|h| - 1]) {
        OrderAfter(own, h);
      } else {
        var before := Recency(own, init);
        assert forall i :: 0 <= i < |before| ==> LastOf(h, before[i].id) == LastOf(init, before[i].id);
      }
    }
  }

  /** The specification has one list only. */
  lemma {:induction false} ByRecencyIsUnique(own: OwnIds, h: seq<Option<App>>, a: seq<App>, b: seq<App>, i: nat)
    requires ByRecency(own, h, a) && ByRecency(own, h, b) && i <= |a| && i <= |b| && a[..i] == b[..i]
    ensures a == b
    decreases |a| - i
  {
    if i < |a| && i < |b| {
      Same(own, h, a, b, i);
      Same(own, h, b, a, i);
      ByRecencyIsUnique(own, h, a, b, i + 1);
    } else if i < |a| {
      Same(own, h, a, b, i);
    } else if i < |b| {
      Same(own, h, b, a, i);
    }
  }

  /** The `i`-th application of `a` is also in `b`, no earlier. */
  lemma Same(own: OwnIds, h: seq<Option<App>>, a: seq<App>, b: seq<App>, i: nat)
    requires ByRecency(own, h, a) && ByRecency(own, h, b) && i < |a| && i <= |b| && a[..i] == b[..i]
    ensures i < |b| && LastOf(h, b[i].id) >= LastOf(h, a[i].id)
    ensures LastOf(h, b[i].id) == LastOf(h, a[i].id) ==> b[i] == a[i]
  {
    var j := Found(own, h, a, b, i);
    NoEarlier(h, a, b, i, j);
    assert i < j ==> LastOf(h, b[i].id) > LastOf(h, b[j].id);
  }

  lemma NoEarlier(h: seq<Option<App>>, a: seq<App>, b: seq<App>, i: nat, j: nat)
    requires NewestFirst(h, a) && i < |a| && i <= |b| && a[..i] == b[..i]
    requires j < |b| && b[j] == a[i]
    ensures i <= j
  {
    assert forall x :: 0 <= x < i ==> b[x] == b[..i][x] == a[x] && LastOf(h, a[x].id) > LastOf(h, a[i].id);
  }

  /** An application one list holds, every list holds. */
  lemma Found(own: OwnIds, h: seq<Option<App>>, a: seq<App>, b: seq<App>, i: nat) returns (j: nat)
    requires AsLastPublished(own, h, a) && AsLastPublished(own, h, b) && ListsAll(own, h, b) && i < |a|
    ensures j < |b| && b[j] == a[i]
  {
    var k := LastOf(h, a[i].id);
    assert Counts(own, h[k]) && Lists(b, a[i].id);
    j :| 0 <= j < |b| && b[j].id == a[i].id;
    assert h[k] == Some(b[j]);
  }

  // --- Cutting early changes nothing -------------------------------------------------------------

  ghost predicate Distinct(apps: seq<App>) {
    forall i, j :: 0 <= i < j < |apps| ==> apps[i].id != apps[j].id
  }

  lemma {:induction false} WithoutAbsent(apps: seq<App>, id: string)
    requires forall i :: 0 <= i < |apps| ==> apps[i].id != id
    ensures Without(apps, id) == apps
  {
    if apps != [] {
      WithoutAbsent(apps[1..], id);
    }
  }

  /** Of a list without repeats, removal after a cut at `n` agrees with removal before it on the first `n - 1`. */
  lemma {:induction false} CutThenRemove(apps: seq<App>, id: string, n: nat)
    requires Distinct(apps) && n <= |apps|
    ensures var cut, full := Without(apps[..n], id), Without(apps, id);
            && n - 1 <= |cut| <= n && cut <= full
            && (|cut| == n - 1 || |cut| == n)
  {
    if n > 0 {
      assert apps[..n][1..] == apps[1..][..n - 1];
      if apps[0].id == id {
        WithoutAbsent(apps[1..], id);
        WithoutAbsent(apps[1..][..n - 1], id);
      } else {
        CutThenRemove(apps[1..], id, n - 1);
      }
    }
  }

  lemma RecencyIsDistinct(own: OwnIds, h: seq<Option<App>>)
    ensures Distinct(Recency(own, h))
  {
    RecencyIsByRecency(own, h);
  }

  lemma {:induction false} ListIsCutRecency(own: OwnIds, h: seq<Option<App>>)
    ensures var f := After(own, h);
            && f.recent == Cut(Recency(own, h))
            && f.current == (if h == [] then None else h[|h| - 1])
            && (Counts(own, f.current) ==> Recency(own, h) != [] && Recency(own, h)[0] == f.current.value)
    decreases |h|
  {
    if h != [] {
      var init, app := h[..|h| - 1], h[|h| - 1];
      ListIsCutRecency(own, init);
      RecencyIsDistinct(own, init);
      var before, full := After(own, init), Recency(own, init);
      if Counts(own, app) {
        var id := app.value.id;
        if before.current == app {
          WithoutAbsent(full[1..], id);
          assert full == [app.value] + full[1..];
          assert Recency(own, h) == full;
        } else {
          CutThenRemove(full, id, |before.recent|);
          assert before.recent == full[..|before.recent|];
          if |full| <= RECENT_APPS {
            assert full[..|full|] == full;
          }
        }
      }
    }
  }

  /** For every history, the bounded list is the most recent part of the one list the history determines. */
  lemma RecentAppsRefineHistory(own: OwnIds, h: seq<Option<App>>, apps: seq<App>)
    requires ByRecency(own, h, apps)
    ensures After(own, h).recent == Cut(apps)
  {
    ListIsCutRecency(own, h);
    RecencyIsByRecency(own, h);
    ByRecencyIsUnique(own, h, apps, Recency(own, h), 0);
  }

  /** How often the frontmost application of `h` changed, from none at first. */
  function Changes(h: seq<Option<App>>): nat
    decreases |h|
  {
    if h == [] then 0 else
    var last := if |h| == 1 then None else h[|h| - 2];
    Changes(h[..|h| - 1]) + if h[|h| - 1] != last then 1 else 0
  }

  /** The generation counts the changes. */
  lemma {:induction false} GenerationCountsChanges(own: OwnIds, h: seq<Option<App>>)
    ensures After(own, h).generation == 1 + Changes(h)
    decreases |h|
  {
    if h != [] {
      var init := h[..|h| - 1];
      GenerationCountsChanges(own, init);
      ListIsCutRecency(own, init);
    }
  }

  class ObservableForeground {
    var current: Option<App>
    var recent: seq<App>
    var generation: nat

    ghost function Model(): Foreground reads this { Foreground(current, recent, generation) }

    constructor ()
      ensures Model() == INITIAL
    {
      current, recent, generation := None, [], 1;
    }

    method Retain(id: string)
      modifies this`recent
      ensures recent == Without(old(recent), id)
    {
      var kept: seq<App> := [];
      for i := 0 to |recent|
        invariant recent == old(recent)
        invariant kept + Without(recent[i..], id) == Without(recent, id)
      {
        assert recent[i..][1..] == recent[i + 1..];
        if recent[i].id != id {
          kept := kept + [recent[i]];
        }
      }
      recent := kept;
    }

    method Update(own: OwnIds, app: Option<App>)
      modifies this
      ensures Model() == SetForeground(own, old(Model()), app)
    {
      if current == app {
        return;
      }
      if app.Some? && app.value.id !in own {
        Retain(app.value.id);
        recent := [app.value] + recent;
        if |recent| > RECENT_APPS {
          recent := recent[..RECENT_APPS];
        }
      }
      current := app;
      generation := generation + 1;
    }
  }
}
