/**
 Pure descriptions of what the hub's loops over the registry produce, in the
 registry's iteration order (the insertion order of its keys): the sends of a
 broadcast, the keys a sweep keeps, and the keys left after one is deleted.
 */
module Routing {
  import opened Protocol

  predicate NoDuplicates(s: seq<Handle>)
  {
    forall i, j :: 0 <= i < j < |s| ==> s[i] != s[j]
  }

  lemma NoDuplicatesSnoc(s: seq<Handle>, x: Handle)
    requires NoDuplicates(s) && x !in s
    ensures NoDuplicates(s + [x])
  {
  }

  lemma NoDuplicatesFront(s: seq<Handle>)
    requires s != []
    ensures NoDuplicates(s) ==> NoDuplicates(s[..|s| - 1]) && s[|s| - 1] !in s[..|s| - 1]
  {
  }

  /** The sends a broadcast of `m` over `order` makes: one to each handle whose
      state is OPEN, in order, leaving out `skip` (the sender of a data message). */
  function Fanout(order: seq<Handle>, ready: Handle -> ReadyState, skip: Option<Handle>, m: Msg): seq<Delivery>
    decreases |order|
  {
    if order == [] then []
    else
      var h := order[|order| - 1];
      Fanout(order[..|order| - 1], ready, skip, m)
        + (if ready(h) == Open && skip != Some(h) then [Delivery(h, m)] else [])
  }

  /** A broadcast over one more key makes at most one more send, at the end. */
  lemma FanoutStep(order: seq<Handle>, i: nat, ready: Handle -> ReadyState, skip: Option<Handle>, m: Msg)
    requires i < |order|
    ensures Fanout(order[..i + 1], ready, skip, m)
            == Fanout(order[..i], ready, skip, m)
               + (if ready(order[i]) == Open && skip != Some(order[i]) then [Delivery(order[i], m)] else [])
  {
    assert order[..i + 1][..i] == order[..i];
  }

  /** A broadcast sends `m` and nothing else, to exactly the OPEN handles of the
      registry other than `skip`. */
  lemma {:induction false} FanoutRecipients(order: seq<Handle>, ready: Handle -> ReadyState, skip: Option<Handle>, m: Msg)
    ensures forall d :: d in Fanout(order, ready, skip, m) ==> d.msg == m
    ensures forall h :: Delivery(h, m) in Fanout(order, ready, skip, m) <==> h in order && ready(h) == Open && skip != Some(h)
    ensures |Fanout(order, ready, skip, m)| <= |order|
    decreases |order|
  {
    if order != [] {
      var n := |order| - 1;
      FanoutRecipients(order[..n], ready, skip, m);
      assert order == order[..n] + [order[n]];
    }
  }

  /** No two sends go to the same handle. */
  predicate DistinctRecipients(r: seq<Delivery>)
  {
    forall i, j :: 0 <= i < j < |r| ==> r[i].to != r[j].to
  }

  /** Over a registry without repeated keys, no client is sent the same broadcast twice. */
  lemma {:induction false} FanoutDistinct(order: seq<Handle>, ready: Handle -> ReadyState, skip: Option<Handle>, m: Msg)
    requires NoDuplicates(order)
    ensures DistinctRecipients(Fanout(order, ready, skip, m))
    decreases |order|
  {
    if order != [] {
      var n := |order| - 1;
      var front := order[..n];
      NoDuplicatesFront(order);
      FanoutDistinct(front, ready, skip, m);
      FanoutRecipients(front, ready, skip, m);
      var r := Fanout(front, ready, skip, m);
      forall i | 0 <= i < |r|
        ensures r[i].to != order[n]
      {
        assert r[i] in r && r[i] == Delivery(r[i].to, m);
      }
      var tail := if ready(order[n]) == Open && skip != Some(order[n]) then [Delivery(order[n], m)] else [];
      assert Fanout(order, ready, skip, m) == r + tail;
      assert DistinctRecipients(r);
      forall i, j | 0 <= i < j < |r + tail|
        ensures (r + tail)[i].to != (r + tail)[j].to
      {
        assert (r + tail)[i] == r[i];
        if j >= |r| {
          assert (r + tail)[j].to == order[n];
        } else {
          assert (r + tail)[j] == r[j];
        }
      }
    }
  }

  /** A data broadcast is a system-style broadcast over the registry without its sender. */
  lemma {:induction false} FanoutSkipIsWithout(order: seq<Handle>, ready: Handle -> ReadyState, sender: Handle, m: Msg)
    ensures Fanout(order, ready, Some(sender), m) == Fanout(Without(order, sender), ready, None, m)
    decreases |order|
  {
    if order != [] {
      var n := |order| - 1;
      FanoutSkipIsWithout(order[..n], ready, sender, m);
      var rest := Without(order[..n], sender);
      if order[n] != sender {
        assert (rest + [order[n]])[..|rest|] == rest;
      } else {
        assert Without(order, sender) == rest;
      }
    }
  }

  /** The keys the periodic sweep leaves in place: those not CLOSING or CLOSED. */
  function Swept(order: seq<Handle>, ready: Handle -> ReadyState): seq<Handle>
    decreases |order|
  {
    if order == [] then []
    else
      var h := order[|order| - 1];
      Swept(order[..|order| - 1], ready) + (if IsStale(ready(h)) then [] else [h])
  }

  /** The sweep keeps one more key, or not, at the end. */
  lemma SweptStep(order: seq<Handle>, i: nat, ready: Handle -> ReadyState)
    requires i < |order|
    ensures Swept(order[..i + 1], ready) == Swept(order[..i], ready) + (if IsStale(ready(order[i])) then [] else [order[i]])
  {
    assert order[..i + 1][..i] == order[..i];
  }

  /** The sweep keeps exactly the keys that are neither CLOSING nor CLOSED, once each. */
  lemma {:induction false} SweptMembers(order: seq<Handle>, ready: Handle -> ReadyState)
    ensures forall h :: h in Swept(order, ready) <==> h in order && !IsStale(ready(h))
    ensures NoDuplicates(order) ==> NoDuplicates(Swept(order, ready))
    decreases |order|
  {
    if order != [] {
      var n := |order| - 1;
      SweptMembers(order[..n], ready);
      NoDuplicatesFront(order);
      assert order == order[..n] + [order[n]];
      if NoDuplicates(order) && !IsStale(ready(order[n])) {
        NoDuplicatesSnoc(Swept(order[..n], ready), order[n]);
      }
    }
  }

  /** Sweeping twice with the same states removes nothing more. */
  lemma {:induction false} SweptIdempotent(order: seq<Handle>, ready: Handle -> ReadyState)
    ensures Swept(Swept(order, ready), ready) == Swept(order, ready)
    decreases |order|
  {
    if order != [] {
      var n := |order| - 1;
      var front := Swept(order[..n], ready);
      SweptIdempotent(order[..n], ready);
      if !IsStale(ready(order[n])) {
        var h := order[n];
        assert Swept(order, ready) == front + [h];
        assert (front + [h])[..|front + [h]| - 1] == front;
        assert (front + [h])[|front + [h]| - 1] == h;
        assert Swept(front + [h], ready) == Swept(front, ready) + [h];
      } else {
        assert Swept(order, ready) == front;
      }
    }
  }

  /** The sweep and the close handler's deletion can happen in either order. */
  lemma {:induction false} SweptWithoutCommute(order: seq<Handle>, ready: Handle -> ReadyState, x: Handle)
    ensures Without(Swept(order, ready), x) == Swept(Without(order, x), ready)
    decreases |order|
  {
    if order != [] {
      var n := |order| - 1;
      var h := order[n];
      SweptWithoutCommute(order[..n], ready, x);
      var kept := Swept(order[..n], ready);
      var rest := Without(order[..n], x);
      var keptH := if IsStale(ready(h)) then [] else [h];
      var restH := if h == x then [] else [h];
      assert Swept(order, ready) == kept + keptH;
      assert Without(order, x) == rest + restH;
      assert Without(kept + keptH, x) == Without(kept, x) + (if keptH == [] then [] else restH) by {
        if keptH != [] {
          assert (kept + keptH)[..|kept + keptH| - 1] == kept;
        } else {
          assert kept + keptH == kept;
        }
      }
      assert Swept(rest + restH, ready) == Swept(rest, ready) + (if restH == [] then [] else keptH) by {
        if restH != [] {
          assert (rest + restH)[..|rest + restH| - 1] == rest;
        } else {
          assert rest + restH == rest;
        }
      }
    }
  }

  /** The keys among `order` whose sockets are CLOSING or CLOSED. */
  function StaleKeys(order: seq<Handle>, ready: Handle -> ReadyState): set<Handle>
    decreases |order|
  {
    if order == [] then {}
    else
      var h := order[|order| - 1];
      StaleKeys(order[..|order| - 1], ready) + (if IsStale(ready(h)) then {h} else {})
  }

  lemma StaleKeysStep(order: seq<Handle>, i: nat, ready: Handle -> ReadyState)
    requires i < |order|
    ensures StaleKeys(order[..i + 1], ready) == StaleKeys(order[..i], ready) + (if IsStale(ready(order[i])) then {order[i]} else {})
  {
    assert order[..i + 1][..i] == order[..i];
  }

  /** The stale keys are exactly the registry keys that the sweep does not keep. */
  lemma {:induction false} StaleKeysMembers(order: seq<Handle>, ready: Handle -> ReadyState)
    ensures forall h :: h in StaleKeys(order, ready) <==> h in order && IsStale(ready(h))
    decreases |order|
  {
    if order != [] {
      var n := |order| - 1;
      StaleKeysMembers(order[..n], ready);
      assert order == order[..n] + [order[n]];
    }
  }

  /** The keys left after `x` is deleted. */
  function Without(order: seq<Handle>, x: Handle): seq<Handle>
    decreases |order|
  {
    if order == [] then []
    else
      var h := order[|order| - 1];
      Without(order[..|order| - 1], x) + (if h == x then [] else [h])
  }

  /** Deleting `x` keeps every other key, once each, and nothing else. */
  lemma {:induction false} WithoutMembers(order: seq<Handle>, x: Handle)
    ensures forall h :: h in Without(order, x) <==> h in order && h != x
    ensures NoDuplicates(order) ==> NoDuplicates(Without(order, x))
    decreases |order|
  {
    if order != [] {
      var n := |order| - 1;
      WithoutMembers(order[..n], x);
      NoDuplicatesFront(order);
      assert order == order[..n] + [order[n]];
      if NoDuplicates(order) && order[n] != x {
        NoDuplicatesSnoc(Without(order[..n], x), order[n]);
      }
    }
  }

  /** Deleting a key that is not there changes nothing. */
  lemma {:induction false} WithoutAbsent(order: seq<Handle>, x: Handle)
    requires x !in order
    ensures Without(order, x) == order
    decreases |order|
  {
    if order != [] {
      var n := |order| - 1;
      WithoutAbsent(order[..n], x);
      assert order == order[..n] + [order[n]];
    }
  }

}
