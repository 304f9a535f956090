/** The listener registry both controllers keep: a `Set` of callbacks, which
    iterates in insertion order and holds each callback once. */
module Listeners {
  import opened Types

  predicate Unique(ls: seq<ListenerId>)
  {
    forall j, k :: 0 <= j < k < |ls| ==> ls[j] != ls[k]
  }

  /** `Set.add`: a new listener goes last; one already registered keeps its place. */
  function Add(ls: seq<ListenerId>, l: ListenerId): (r: seq<ListenerId>)
    ensures Unique(ls) ==> Unique(r)
    ensures forall x :: x in r <==> x in ls || x == l
    ensures |r| <= |ls| + 1
  {
    if l in ls then ls else ls + [l]
  }

  /** `Set.delete`: drops `l` and keeps the others in their order. */
  function Remove(ls: seq<ListenerId>, l: ListenerId): (r: seq<ListenerId>)
    ensures forall x :: x in r <==> x in ls && x != l
    ensures Unique(ls) ==> Unique(r)
    ensures l in ls ==> |r| < |ls|
    ensures l !in ls ==> r == ls
  {
    if ls == [] then []
    else
      var rest := Remove(ls[1..], l);
      assert Unique(ls) ==> Unique(ls[1..]) && ls[0] !in ls[1..];
      if ls[0] == l then rest else [ls[0]] + rest
  }

  /** `listeners.forEach(listener => listener(snap))`. */
  function Notifications(ls: seq<ListenerId>, snap: Snapshot): seq<Event>
  {
    seq(|ls|, k requires 0 <= k < |ls| => Notify(ls[k], snap))
  }

  method NotifyAll(ls: seq<ListenerId>, snap: Snapshot) returns (sent: seq<Event>)
    ensures sent == Notifications(ls, snap)
  {
    sent := [];
    var i := 0;
    while i < |ls|
      invariant 0 <= i <= |ls|
      invariant sent == Notifications(ls[..i], snap)
    {
      sent := sent + [Notify(ls[i], snap)];
      i := i + 1;
    }
    assert ls[..|ls|] == ls;
  }

  /** A listener that is not registered hears nothing. */
  lemma NotNotified(ls: seq<ListenerId>, snap: Snapshot, l: ListenerId)
    requires l !in ls
    ensures forall e :: e in Notifications(ls, snap) ==> e.Notify? && e.listener != l
  {
  }

  /** With each listener registered once, each is called exactly once. */
  lemma {:induction false} NotifiedOnce(ls: seq<ListenerId>, snap: Snapshot, l: ListenerId)
    requires Unique(ls) && l in ls
    ensures multiset(Notifications(ls, snap))[Notify(l, snap)] == 1
  {
    assert Notifications(ls, snap) == [Notify(ls[0], snap)] + Notifications(ls[1..], snap);
    if ls[0] == l {
      assert l !in ls[1..];
      NotNotified(ls[1..], snap, l);
      assert Notify(l, snap) !in Notifications(ls[1..], snap);
    } else {
      NotifiedOnce(ls[1..], snap, l);
    }
  }

  /** Unsubscribing right after subscribing a new listener restores the registry. */
  lemma {:induction false} RemoveAfterAdd(ls: seq<ListenerId>, l: ListenerId)
    requires l !in ls
    ensures Remove(Add(ls, l), l) == ls
  {
    if ls == [] {
    } else {
      assert (ls + [l])[1..] == ls[1..] + [l];
      RemoveAfterAdd(ls[1..], l);
    }
  }
}
