/** The listener registry both snapshot stores share (apps/web/src/dataStore.ts
    and src/dataStore.ts): a list that `subscribe` pushes onto, that the
    returned unsubscribe splices, and that `notify` walks. Listeners are
    callbacks; here each is named by an id, and calling one is recorded as a
    delivery of the snapshot it was given. */
module Listeners {

  type ListenerId = nat

  /** One call `listener(snapshot)`. */
  datatype Delivery<S> = Delivery(listener: ListenerId, snapshot: S)

  /** `listeners.indexOf(l)`: the first position of `l`, or -1. */
  function IndexOf(ls: seq<ListenerId>, l: ListenerId): (i: int)
    ensures -1 <= i < |ls|
    ensures i == -1 <==> l !in ls
    ensures i >= 0 ==> ls[i] == l && forall k | 0 <= k < i :: ls[k] != l
  {
    if ls == [] then -1
    else if ls[0] == l then 0
    else
      var j := IndexOf(ls[1..], l);
      assert ls == [ls[0]] + ls[1..];
      if j == -1 then -1 else j + 1
  }

  /** The function `subscribe` returns: `if (idx >= 0) listeners.splice(idx, 1)`. */
  function Unsubscribed(ls: seq<ListenerId>, l: ListenerId): (r: seq<ListenerId>)
    ensures l !in ls ==> r == ls
    ensures l in ls ==> |r| == |ls| - 1
  {
    var i := IndexOf(ls, l);
    if i >= 0 then ls[..i] + ls[i + 1..] else ls
  }

  /** Unsubscribing removes exactly one registration of `l`, the first, and
      keeps the others in order; an unregistered `l` changes nothing. */
  lemma UnsubscribeRemovesFirst(ls: seq<ListenerId>, l: ListenerId)
    ensures l !in ls ==> Unsubscribed(ls, l) == ls
    ensures l in ls ==> && multiset(Unsubscribed(ls, l)) == multiset(ls) - multiset{l}
                        && exists i | 0 <= i < |ls| :: && ls[i] == l && l !in ls[..i]
                                                       && Unsubscribed(ls, l) == ls[..i] + ls[i + 1..]
  {
    if l in ls {
      var i := IndexOf(ls, l);
      assert ls == ls[..i] + [ls[i]] + ls[i + 1..];
    }
  }

  /** Subscribing and then unsubscribing a new listener restores the registry. */
  lemma SubscribeThenUnsubscribe(ls: seq<ListenerId>, l: ListenerId)
    requires l !in ls
    ensures Unsubscribed(ls + [l], l) == ls
  {
    assert l in ls + [l] && (ls + [l])[|ls|] == l;
    assert (ls + [l])[..|ls|] == ls;
    assert forall k | 0 <= k < |ls| :: (ls + [l])[k] == ls[k];
    assert IndexOf(ls + [l], l) == |ls|;
  }

  /** Calling the same unsubscribe function a second time does nothing
      exactly when the listener had been registered at most once. */
  lemma UnsubscribeTwice(ls: seq<ListenerId>, l: ListenerId)
    ensures Unsubscribed(Unsubscribed(ls, l), l) == Unsubscribed(ls, l) <==> multiset(ls)[l] <= 1
  {
    UnsubscribeRemovesFirst(ls, l);
    var once: seq<ListenerId> := Unsubscribed(ls, l);
    UnsubscribeRemovesFirst(once, l);
    assert l in once <==> multiset(once)[l] > 0;
    if l in once {
      assert |Unsubscribed(once, l)| == |once| - 1;
    }
  }

  /** What `listeners.forEach((l) => l(s))` does: every registered listener,
      in registration order, is called once with `s`. */
  function Deliveries<S>(ls: seq<ListenerId>, s: S): (r: seq<Delivery<S>>)
    ensures |r| == |ls|
    ensures forall i | 0 <= i < |ls| :: r[i] == Delivery(ls[i], s)
  {
    if ls == [] then [] else Deliveries(ls[..|ls| - 1], s) + [Delivery(ls[|ls| - 1], s)]
  }
}
