/** Values shared by every component: options, device routes and enumerations of finite sets. */
module Basics {

  datatype Option<+T> = None | Some(value: T)

  /** How the agent reaches a device. */
  datatype DeviceRoute =
    | Bolt(receiverUid: string, slot: nat)
    | Unifying(receiverUid: string, slot: nat)
    | Direct(vendorId: nat, productId: nat)
    | RawHid(vendorId: nat, productId: nat, usagePage: nat, usageId: nat, identity: string)

  /** `order` lists every element of `s` exactly once: one iteration order of a hash set or hash map. */
  ghost predicate Enumerates<T(!new)>(order: seq<T>, s: set<T>)
  {
    && (forall x :: x in order <==> x in s)
    && (forall i, j :: 0 <= i < j < |order| ==> order[i] != order[j])
  }

  lemma EnumeratesNext<T(!new)>(order: seq<T>, s: set<T>, x: T)
    requires Enumerates(order, s) && x !in s
    ensures Enumerates(order + [x], s + {x})
  {
    var next := order + [x];
    assert forall i :: 0 <= i < |order| ==> next[i] == order[i] && order[i] in order;
    assert next[|order|] == x;
  }

  lemma EnumeratesOne<T(!new)>(order: seq<T>, x: T)
    requires Enumerates(order, {x})
    ensures order == [x]
  {
    assert x in order;
    var k :| 0 <= k < |order| && order[k] == x;
    forall i | 0 <= i < |order| ensures order[i] == x && i == k {
      assert order[i] in order;
      assert order[i] in {x};
    }
    assert order[0] == x && order[|order| - 1] == x;
  }

  /** A loop over `all` has visited the elements in `order` and still has `todo` ahead. */
  ghost predicate Visits<T(!new)>(order: seq<T>, todo: set<T>, all: set<T>) {
    todo <= all && Enumerates(order, all - todo)
  }

  lemma VisitNext<T(!new)>(order: seq<T>, todo: set<T>, all: set<T>, x: T)
    requires Visits(order, todo, all) && x in todo
    ensures Visits(order + [x], todo - {x}, all)
  {
    EnumeratesNext(order, all - todo, x);
    assert (all - todo) + {x} == all - (todo - {x});
  }

  lemma VisitedAll<T(!new)>(order: seq<T>, all: set<T>)
    requires Visits(order, {}, all)
    ensures Enumerates(order, all)
  {
    assert all - {} == all;
  }
}
