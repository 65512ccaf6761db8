/**
  Which keyboard captures a route that several inventory entries share (orchestrator.rs
  `keyboard_specs_for`): the loop that replaces entries in place picks, for every route, the earliest
  candidate of the best rank, with the routes in the order they were first seen.
*/
module KeyboardSelection {
  import opened Basics

  /** Routes are only compared for equality. */
  datatype Candidate<R> = Candidate(key: string, route: R, capturesNothing: bool, takesGRow: bool, online: bool)

  /** The lexicographic rank: capturing keys for the app in front, then being online. Lower wins. */
  function Rank<R>(c: Candidate<R>): nat {
    (if c.capturesNothing && !c.takesGRow then 2 else 0) + (if c.online then 0 else 1)
  }

  /** It captures some key for the app in front. */
  predicate CapturesInFront<R>(c: Candidate<R>) { !c.capturesNothing || c.takesGRow }

  /** Capturing keys for the app in front beats not doing so; then being online beats being offline. */
  predicate Better<R>(a: Candidate<R>, b: Candidate<R>) {
    if CapturesInFront(a) != CapturesInFront(b) then CapturesInFront(a) else a.online && !b.online
  }

  lemma RankIsBetter<R>(a: Candidate<R>, b: Candidate<R>)
    ensures Rank(a) < Rank(b) <==> Better(a, b)
  {}

  /** Candidate `i` beats every other candidate of its route among the first `n`. */
  ghost predicate Wins<R>(cs: seq<Candidate<R>>, n: nat, i: nat) {
    && i < n <= |cs|
    && forall j :: 0 <= j < n && cs[j].route == cs[i].route ==>
         Better(cs[i], cs[j]) || (!Better(cs[j], cs[i]) && i <= j)
  }

  /** The position at which `route` is first seen. */
  ghost function First<R>(cs: seq<Candidate<R>>, route: R): nat {
    if cs == [] || cs[0].route == route then 0 else 1 + First(cs[1..], route)
  }

  lemma {:induction false} FirstIs<R>(cs: seq<Candidate<R>>, p: nat)
    requires p < |cs| && forall q :: 0 <= q < p ==> cs[q].route != cs[p].route
    ensures First(cs, cs[p].route) == p
  {
    if p > 0 {
      assert cs[1..][p - 1] == cs[p];
      FirstIs(cs[1..], p - 1);
    }
  }

  lemma {:induction false} FirstSees<R>(cs: seq<Candidate<R>>, p: nat)
    requires p < |cs|
    ensures First(cs, cs[p].route) <= p && cs[First(cs, cs[p].route)].route == cs[p].route
  {
    if cs[0].route != cs[p].route {
      assert cs[1..][p - 1] == cs[p];
      FirstSees(cs[1..], p - 1);
    }
  }

  ghost predicate AllWin<R>(cs: seq<Candidate<R>>, n: nat, picks: seq<nat>) {
    forall i :: 0 <= i < |picks| ==> Wins(cs, n, picks[i])
  }

  ghost predicate InFirstSeenOrder<R>(cs: seq<Candidate<R>>, picks: seq<nat>)
    requires forall i :: 0 <= i < |picks| ==> picks[i] < |cs|
  {
    forall i, j :: 0 <= i < j < |picks| ==> First(cs, cs[picks[i]].route) < First(cs, cs[picks[j]].route)
  }

  /** The route of candidate `p` is picked. */
  ghost predicate Picked<R>(cs: seq<Candidate<R>>, picks: seq<nat>, p: nat)
    requires p < |cs|
  {
    exists i :: 0 <= i < |picks| && picks[i] < |cs| && cs[picks[i]].route == cs[p].route
  }

  ghost predicate AllPicked<R>(cs: seq<Candidate<R>>, n: nat, picks: seq<nat>)
    requires n <= |cs|
  {
    forall p {:trigger Picked(cs, picks, p)} :: 0 <= p < n ==> Picked(cs, picks, p)
  }

  /** `picks` are the positions of the winners among the first `n`, one per route, routes as first seen. */
  ghost predicate Selects<R>(cs: seq<Candidate<R>>, n: nat, picks: seq<nat>) {
    n <= |cs| && AllWin(cs, n, picks) && InFirstSeenOrder(cs, picks) && AllPicked(cs, n, picks)
  }

  /** The place of `route` among the chosen, if it is taken. */
  method FindRoute<R(==)>(chosen: seq<Candidate<R>>, route: R) returns (at: Option<nat>)
    ensures at.Some? ==> at.value < |chosen| && chosen[at.value].route == route
    ensures at.None? ==> forall i :: 0 <= i < |chosen| ==> chosen[i].route != route
  {
    for i := 0 to |chosen|
      invariant forall j :: 0 <= j < i ==> chosen[j].route != route
    {
      if chosen[i].route == route {
        return Some(i);
      }
    }
    return None;
  }

  /** The same routes are picked when each position names the same route as before. */
  lemma SameRoutesPicked<R>(cs: seq<Candidate<R>>, n: nat, picks: seq<nat>, picks': seq<nat>)
    requires n <= |cs| && AllPicked(cs, n, picks) && |picks| <= |picks'|
    requires forall i :: 0 <= i < |picks| ==>
               picks[i] < |cs| && picks'[i] < |cs| && cs[picks'[i]].route == cs[picks[i]].route
    ensures AllPicked(cs, n, picks')
  {
    forall p | 0 <= p < n ensures Picked(cs, picks', p) {
      assert Picked(cs, picks, p);
      var i :| 0 <= i < |picks| && picks[i] < |cs| && cs[picks[i]].route == cs[p].route;
      assert cs[picks'[i]].route == cs[p].route;
    }
  }

  function Contested<R>(cs: seq<Candidate<R>>, n: nat, picks: seq<nat>, at: nat): seq<nat>
    requires n < |cs| && at < |picks| && picks[at] < |cs|
  {
    if Better(cs[n], cs[picks[at]]) then picks[at := n] else picks
  }

  lemma DistinctRoutes<R>(cs: seq<Candidate<R>>, picks: seq<nat>, i: nat, j: nat)
    requires forall x :: 0 <= x < |picks| ==> picks[x] < |cs|
    requires InFirstSeenOrder(cs, picks) && i < |picks| && j < |picks| && i != j
    ensures cs[picks[i]].route != cs[picks[j]].route
  {
    if i < j {
      assert First(cs, cs[picks[i]].route) < First(cs, cs[picks[j]].route);
    } else {
      assert First(cs, cs[picks[j]].route) < First(cs, cs[picks[i]].route);
    }
  }

  /** A winner stays one when the next candidate has another route, or ranks no better. */
  lemma StaysWinner<R>(cs: seq<Candidate<R>>, n: nat, i: nat)
    requires n < |cs| && Wins(cs, n, i)
    requires cs[i].route == cs[n].route ==> !Better(cs[n], cs[i])
    ensures Wins(cs, n + 1, i)
  {}

  lemma BecomesWinner<R>(cs: seq<Candidate<R>>, n: nat, i: nat)
    requires n < |cs| && Wins(cs, n, i) && cs[i].route == cs[n].route && Better(cs[n], cs[i])
    ensures Wins(cs, n + 1, n)
  {}

  lemma OrderOfSameRoutes<R>(cs: seq<Candidate<R>>, picks: seq<nat>, picks': seq<nat>)
    requires |picks'| == |picks|
    requires forall i :: 0 <= i < |picks| ==>
               picks[i] < |cs| && picks'[i] < |cs| && cs[picks'[i]].route == cs[picks[i]].route
    requires InFirstSeenOrder(cs, picks)
    ensures InFirstSeenOrder(cs, picks')
  {
    forall i, j | 0 <= i < j < |picks'| ensures First(cs, cs[picks'[i]].route) < First(cs, cs[picks'[j]].route) {
      assert First(cs, cs[picks[i]].route) < First(cs, cs[picks[j]].route);
    }
  }

  lemma InRange<R>(cs: seq<Candidate<R>>, n: nat, picks: seq<nat>)
    requires n <= |cs| && AllWin(cs, n, picks)
    ensures forall i :: 0 <= i < |picks| ==> picks[i] < n
  {
    forall i | 0 <= i < |picks| ensures picks[i] < n { assert Wins(cs, n, picks[i]); }
  }

  /** Candidate `n` of a route already taken at `at`: it replaces a worse one. */
  lemma Contests<R>(cs: seq<Candidate<R>>, n: nat, picks: seq<nat>, at: nat)
    requires n < |cs| && Selects(cs, n, picks) && at < |picks| && cs[picks[at]].route == cs[n].route
    ensures Selects(cs, n + 1, Contested(cs, n, picks, at))
  {
    var picks' := Contested(cs, n, picks, at);
    InRange(cs, n, picks);
    forall i | 0 <= i < |picks| ensures Wins(cs, n + 1, picks'[i]) {
      assert Wins(cs, n, picks[i]);
      if i != at {
        DistinctRoutes(cs, picks, i, at);
        StaysWinner(cs, n, picks[i]);
      } else if picks'[at] == picks[at] {
        StaysWinner(cs, n, picks[at]);
      } else {
        BecomesWinner(cs, n, picks[at]);
      }
    }
    OrderOfSameRoutes(cs, picks, picks');
    SameRoutesPicked(cs, n, picks, picks');
    assert cs[picks'[at]].route == cs[n].route;
    assert Picked(cs, picks', n);
  }

  lemma OrderExtends<R>(cs: seq<Candidate<R>>, n: nat, picks: seq<nat>)
    requires n < |cs| && forall i :: 0 <= i < |picks| ==> picks[i] < n
    requires InFirstSeenOrder(cs, picks)
    requires forall q :: 0 <= q < n ==> cs[q].route != cs[n].route
    ensures InFirstSeenOrder(cs, picks + [n])
  {
    var picks' := picks + [n];
    FirstIs(cs, n);
    forall i, j | 0 <= i < j < |picks'| ensures First(cs, cs[picks'[i]].route) < First(cs, cs[picks'[j]].route) {
      if j < |picks| {
        assert First(cs, cs[picks[i]].route) < First(cs, cs[picks[j]].route);
      } else {
        FirstSees(cs, picks[i]);
      }
    }
  }

  /** Candidate `n` of a route seen for the first time: it is chosen last. */
  lemma Joins<R>(cs: seq<Candidate<R>>, n: nat, picks: seq<nat>)
    requires n < |cs| && Selects(cs, n, picks)
    requires forall i :: 0 <= i < |picks| ==> picks[i] < |cs| && cs[picks[i]].route != cs[n].route
    ensures Selects(cs, n + 1, picks + [n])
  {
    var picks' := picks + [n];
    InRange(cs, n, picks);
    forall p | 0 <= p < n ensures cs[p].route != cs[n].route {
      assert Picked(cs, picks, p);
    }
    OrderExtends(cs, n, picks);
    forall i | 0 <= i < |picks'| ensures Wins(cs, n + 1, picks'[i]) {
      if i < |picks| {
        assert Wins(cs, n, picks[i]);
        StaysWinner(cs, n, picks[i]);
      }
    }
    SameRoutesPicked(cs, n, picks, picks');
    assert picks'[|picks|] == n;
    assert Picked(cs, picks', n);
  }

  /** `chosen` are the candidates at the positions `picks`. */
  ghost predicate At<R>(cs: seq<Candidate<R>>, picks: seq<nat>, chosen: seq<Candidate<R>>) {
    |chosen| == |picks| && forall i :: 0 <= i < |picks| ==> picks[i] < |cs| && chosen[i] == cs[picks[i]]
  }

  /** One winner per route, the earliest candidate of the best rank, routes as first seen. */
  ghost predicate Selection<R(!new)>(cs: seq<Candidate<R>>, chosen: seq<Candidate<R>>) {
    exists picks :: At(cs, picks, chosen) && Selects(cs, |cs|, picks)
  }

  /** The selection loop. */
  method KeyboardSpecs<R(==,!new)>(cs: seq<Candidate<R>>) returns (chosen: seq<Candidate<R>>)
    ensures Selection(cs, chosen)
  {
    ghost var picks: seq<nat> := [];
    chosen := [];
    for n := 0 to |cs|
      invariant Selects(cs, n, picks) && At(cs, picks, chosen)
    {
      var at := FindRoute(chosen, cs[n].route);
      assert forall i :: 0 <= i < |picks| ==> Wins(cs, n, picks[i]);
      if at.None? {
        Joins(cs, n, picks);
        chosen := chosen + [cs[n]];
        picks := picks + [n];
      } else {
        Contests(cs, n, picks, at.value);
        RankIsBetter(cs[n], chosen[at.value]);
        if Rank(cs[n]) < Rank(chosen[at.value]) {
          chosen := chosen[at.value := cs[n]];
        }
        picks := Contested(cs, n, picks, at.value);
      }
    }
  }

  /** The route at `i` of one selection is in the other too, no later. */
  lemma NoLater<R>(cs: seq<Candidate<R>>, a: seq<nat>, b: seq<nat>, i: nat)
    requires Selects(cs, |cs|, a) && Selects(cs, |cs|, b)
    requires i < |a| && i <= |b| && a[..i] == b[..i]
    ensures i < |b| && b[i] < |cs| && a[i] < |cs|
    ensures First(cs, cs[b[i]].route) <= First(cs, cs[a[i]].route)
  {
    var j := Elsewhere(cs, a, b, i);
    NotEarlier(cs, a, b, i, j);
    assert i < j ==> First(cs, cs[b[i]].route) < First(cs, cs[b[j]].route);
  }

  lemma NotEarlier<R>(cs: seq<Candidate<R>>, a: seq<nat>, b: seq<nat>, i: nat, j: nat)
    requires i < |a| && i <= |b| && a[..i] == b[..i] && j < |b|
    requires (forall x :: 0 <= x < |a| ==> a[x] < |cs|) && InFirstSeenOrder(cs, a)
    requires b[j] < |cs| && cs[b[j]].route == cs[a[i]].route
    ensures i <= j
  {
    assert forall x :: 0 <= x < i ==> b[x] == b[..i][x] == a[x];
  }

  /** The route at `i` of one selection is somewhere in the other. */
  lemma Elsewhere<R>(cs: seq<Candidate<R>>, a: seq<nat>, b: seq<nat>, i: nat) returns (j: nat)
    requires Selects(cs, |cs|, a) && Selects(cs, |cs|, b) && i < |a|
    ensures (forall x :: 0 <= x < |a| ==> a[x] < |cs|) && forall x :: 0 <= x < |b| ==> b[x] < |cs|
    ensures j < |b| && cs[b[j]].route == cs[a[i]].route
  {
    InRange(cs, |cs|, a);
    InRange(cs, |cs|, b);
    assert Picked(cs, b, a[i]);
    j :| 0 <= j < |b| && b[j] < |cs| && cs[b[j]].route == cs[a[i]].route;
  }

  /** The selection is determined by the candidates alone. */
  lemma SelectionIsUnique<R(!new)>(cs: seq<Candidate<R>>, a: seq<Candidate<R>>, b: seq<Candidate<R>>)
    requires Selection(cs, a) && Selection(cs, b)
    ensures a == b
  {
    var p :| At(cs, p, a) && Selects(cs, |cs|, p);
    var q :| At(cs, q, b) && Selects(cs, |cs|, q);
    PicksAreUnique(cs, p, q, 0);
  }

  lemma {:induction false} PicksAreUnique<R>(cs: seq<Candidate<R>>, a: seq<nat>, b: seq<nat>, i: nat)
    requires Selects(cs, |cs|, a) && Selects(cs, |cs|, b)
    requires i <= |a| && i <= |b| && a[..i] == b[..i]
    ensures a == b
    decreases |a| - i
  {
    if i < |a| {
      NoLater(cs, a, b, i);
      NoLater(cs, b, a, i);
      FirstSees(cs, a[i]);
      FirstSees(cs, b[i]);
      assert Wins(cs, |cs|, a[i]) && Wins(cs, |cs|, b[i]);
      assert a[..i + 1] == b[..i + 1];
      PicksAreUnique(cs, a, b, i + 1);
    } else if i < |b| {
      NoLater(cs, b, a, i);
    }
  }
}
