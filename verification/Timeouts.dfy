/** timeout_process: which events it activates, in what order, and that it does nothing else. */
module Timeouts {
  import opened Seqs
  import opened Timevals
  import opened Events
  import opened Epoll
  import opened BaseState
  import opened BaseInv
  import opened BaseEffects

  /** event_del followed by event_active(ev, EV_TIMEOUT, 1). */
  ghost function Expire(s: State, e: Event): State {
    MakeActive(Del(s, e).0, e, {TimedOut}, 1)
  }

  ghost function ExpireAll(s: State, order: seq<Event>): State
    decreases |order|
  {
    if order == [] then s else ExpireAll(Expire(s, order[0]), order[1..])
  }

  ghost predicate Due(s: State, e: Event, now: Timeval) {
    e in s.heap && !Later(Of(s, e).timeout, now)
  }

  /** A possible top of the timer heap. */
  ghost predicate Earliest(s: State, e: Event) {
    e in s.heap && forall x | x in s.heap :: !Later(Of(s, e).timeout, Of(s, x).timeout)
  }

  /** `order` are the events the loop of timeout_process finds at the top of the heap, one
      after the other, until the top is in the future or there is none. */
  ghost predicate Serves(s: State, now: Timeval, order: seq<Event>)
    decreases |order|
  {
    if order == [] then forall x | x in s.heap :: !Due(s, x, now)
    else Earliest(s, order[0]) && Due(s, order[0], now) && Serves(Expire(s, order[0]), now, order[1..])
  }

  /** The members of `list` that are not in `out`, and those of priority `pri`, in order. */
  function Drop(list: seq<Event>, out: set<Event>): seq<Event> {
    if list == [] then []
    else if list[0] in out then Drop(list[1..], out)
    else [list[0]] + Drop(list[1..], out)
  }

  function OfPriority(s: State, list: seq<Event>, pri: int): seq<Event> {
    if list == [] then []
    else if Of(s, list[0]).pri == pri then [list[0]] + OfPriority(s, list[1..], pri)
    else OfPriority(s, list[1..], pri)
  }

  function Expired(ev: Ev): Ev {
    ev.(flags := ev.flags - QUEUES + {Active}, res := {TimedOut}, ncalls := 1, pncalls := 0)
  }

  // ----- one event -----

  lemma ExpireInv(s: State, e: Event)
    requires Inv(s) && e in s.evs && e != s.sigEvent
    ensures Inv(Expire(s, e))
  {
    hide Inv, Del;
    DelInv(s, e);
    DelBackend(s, e);
    MakeActiveInv(Del(s, e).0, e, {TimedOut}, 1);
  }

  lemma ExpireEffect(s: State, e: Event)
    requires Core(s) && e in s.evs
    ensures var s' := Expire(s, e);
            && s'.evs == s.evs[e := Expired(s.evs[e])]
            && s'.inserted == Without(s.inserted, e) && s'.heap == s.heap - {e}
            && |s'.active| == |s.active| && 0 <= s.evs[e].pri < |s.active|
            && s'.active == s.active[s.evs[e].pri := Without(s.active[s.evs[e].pri], e) + [e]]
            && s'.sigEvent == s.sigEvent
  {
    hide Core, Del, Without;
    ShapeOf(s, e);
    DelEffect(s, e);
    DelBackend(s, e);
    assert Short(1) == 1;
    assert Active !in s.evs[e].flags - QUEUES;
  }

  // ----- all of them -----

  lemma {:induction false} DropWithout(list: seq<Event>, e: Event, out: set<Event>)
    requires NoDup(list)
    ensures Drop(Without(list, e), out) == Drop(list, out + {e})
  {
    if list != [] {
      if list[0] == e {
        DropAbsent(list[1..], e, out);
      } else {
        DropWithout(list[1..], e, out);
        assert ([list[0]] + Without(list[1..], e))[1..] == Without(list[1..], e);
      }
    }
  }

  lemma {:induction false} DropAbsent(list: seq<Event>, e: Event, out: set<Event>)
    requires e !in list
    ensures Drop(list, out + {e}) == Drop(list, out)
  {
    if list != [] {
      DropAbsent(list[1..], e, out);
    }
  }

  lemma {:induction false} DropAppend(list: seq<Event>, e: Event, out: set<Event>)
    requires e !in out
    ensures Drop(list + [e], out) == Drop(list, out) + [e]
  {
    if list != [] {
      DropAppend(list[1..], e, out);
      assert (list + [e])[1..] == list[1..] + [e];
    }
  }

  lemma {:induction false} OfPrioritySame(s: State, s': State, list: seq<Event>, pri: int)
    requires forall x | x in list :: Of(s', x).pri == Of(s, x).pri
    ensures OfPriority(s', list, pri) == OfPriority(s, list, pri)
  {
    if list != [] {
      OfPrioritySame(s, s', list[1..], pri);
    }
  }

  function SetOf(list: seq<Event>): set<Event> {
    set x | x in list
  }

  /** Exactly the events in `order` have been taken off everything and activated for their
      timeout, each with one call; every active queue has kept its other entries in order
      and got its share of `order` behind them. */
  ghost predicate AllExpired(s: State, order: seq<Event>, s': State) {
    && s'.evs.Keys == s.evs.Keys
    && (forall x | x in s.evs :: s'.evs[x] == if x in order then Expired(s.evs[x]) else s.evs[x])
    && s'.heap == s.heap - SetOf(order)
    && s'.inserted == Drop(s.inserted, SetOf(order))
    && |s'.active| == |s.active|
    && forall i | 0 <= i < |s.active| ::
         s'.active[i] == Drop(s.active[i], SetOf(order)) + OfPriority(s, order, i)
  }

  lemma {:induction false} DropNothing(list: seq<Event>)
    ensures Drop(list, {}) == list
  {
    if list != [] { DropNothing(list[1..]); }
  }

  lemma {:induction false} ExpireAllEffect(s: State, order: seq<Event>)
    requires Inv(s) && NoDup(order) && s.sigEvent !in order
    requires forall x | x in order :: x in s.evs
    ensures Inv(ExpireAll(s, order)) && AllExpired(s, order, ExpireAll(s, order))
    decreases |order|
  {
    hide Inv, Expire, AllExpired;
    if order == [] {
      NoneExpired(s);
    } else {
      var e, rest := order[0], order[1..];
      var s1 := Expire(s, e);
      ExpireInv(s, e);
      ExpireEffect(s, e) by { CoreOf(s); }
      ExpireAllEffect(s1, rest);
      OneAndAll(s, e, rest, ExpireAll(s1, rest));
      assert [e] + rest == order;
    }
  }

  lemma CoreOf(s: State)
    requires Inv(s)
    ensures Core(s)
  {
  }

  lemma NoneExpired(s: State)
    ensures AllExpired(s, [], s)
  {
    assert SetOf([]) == {};
    DropNothing(s.inserted);
    forall i | 0 <= i < |s.active| ensures Drop(s.active[i], {}) == s.active[i] {
      DropNothing(s.active[i]);
    }
  }

  /** Expiring `e` and then `rest` is expiring `[e] + rest`. */
  lemma OneAndAll(s: State, e: Event, rest: seq<Event>, s': State)
    requires Inv(s) && e in s.evs && e !in rest && (forall x | x in rest :: x in s.evs)
    requires AllExpired(Expire(s, e), rest, s')
    ensures AllExpired(s, [e] + rest, s')
  {
    hide Inv, Expire, Without, Expired, Drop, OfPriority;
    var s1, out := Expire(s, e), SetOf(rest);
    CoreOf(s);
    ExpireEffect(s, e);
    assert SetOf([e] + rest) == out + {e};
    NoDups(s);
    DropWithout(s.inserted, e, out);
    forall i | 0 <= i < |s.active|
      ensures s'.active[i] == Drop(s.active[i], out + {e}) + OfPriority(s, [e] + rest, i)
    {
      QueueOneAndAll(s, e, rest, i);
    }
  }

  lemma QueueOneAndAll(s: State, e: Event, rest: seq<Event>, i: nat)
    requires Core(s) && e in s.evs && e !in rest && (forall x | x in rest :: x in s.evs) && i < |s.active|
    ensures |Expire(s, e).active| == |s.active|
    ensures Drop(Expire(s, e).active[i], SetOf(rest)) + OfPriority(Expire(s, e), rest, i)
            == Drop(s.active[i], SetOf(rest) + {e}) + OfPriority(s, [e] + rest, i)
  {
    hide Core, Expire, Without, Expired, Drop;
    var s1, out := Expire(s, e), SetOf(rest);
    ExpireEffect(s, e);
    NoDups(s);
    assert Expired(s.evs[e]).pri == s.evs[e].pri by { ExpiredStatic(s.evs[e]); }
    OfPrioritySame(s, s1, rest, i);
    assert ([e] + rest)[1..] == rest;
    if i == s.evs[e].pri {
      DropAppend(Without(s.active[i], e), e, out);
      DropWithout(s.active[i], e, out);
    } else {
      NotElsewhere(s, e, i);
      DropAbsent(s.active[i], e, out);
    }
  }

  lemma ExpiredStatic(ev: Ev)
    ensures Expired(ev).pri == ev.pri && Expired(ev).timeout == ev.timeout
  {
  }

  lemma NoDups(s: State)
    requires Core(s)
    ensures NoDup(s.inserted) && forall i | 0 <= i < |s.active| :: NoDup(s.active[i])
  {
  }

  lemma NotElsewhere(s: State, e: Event, i: nat)
    requires Core(s) && e in s.evs && i < |s.active| && i != s.evs[e].pri
    ensures e !in s.active[i]
  {
  }

  // ----- the loop -----

  /** The loop serves each due event once, none that is not due, and in the order of their
      deadlines; its length is bounded by the heap. */
  lemma {:induction false} ServesExactly(s: State, now: Timeval, order: seq<Event>)
    requires Inv(s) && Serves(s, now, order)
    ensures ServedInOrder(s, now, order)
    decreases |order|
  {
    hide Inv, Expire, ServedInOrder, Earliest, Later;
    if order == [] {
      NoneServed(s, now);
    } else {
      var e, rest := order[0], order[1..];
      ExpireOne(s, e);
      ServesExactly(Expire(s, e), now, rest);
      ServedNext(s, Expire(s, e), now, e, rest);
      assert [e] + rest == order;
    }
  }

  lemma ExpireOne(s: State, e: Event)
    requires Inv(s) && e in s.heap
    ensures var s1 := Expire(s, e);
            && Inv(s1) && s1.heap == s.heap - {e}
            && forall x | x in s1.heap :: Of(s1, x).timeout == Of(s, x).timeout
  {
    hide Inv, Expire, Expired;
    InHeap(s, e);
    ExpireInv(s, e);
    CoreOf(s);
    ExpireEffect(s, e);
    ExpiredStatic(s.evs[e]);
  }

  ghost predicate ServedInOrder(s: State, now: Timeval, order: seq<Event>) {
    && NoDup(order)
    && (forall x | x in order :: Due(s, x, now))
    && (forall x | x in s.heap && Due(s, x, now) :: x in order)
    && (forall i, j | 0 <= i < j < |order| :: !Later(Of(s, order[i]).timeout, Of(s, order[j]).timeout))
  }

  lemma NoneServed(s: State, now: Timeval)
    requires forall x | x in s.heap :: !Due(s, x, now)
    ensures ServedInOrder(s, now, [])
  {
  }

  lemma ServedNext(s: State, s1: State, now: Timeval, e: Event, rest: seq<Event>)
    requires Earliest(s, e) && Due(s, e, now) && ServedInOrder(s1, now, rest)
    requires s1.heap == s.heap - {e} && forall x | x in s1.heap :: Of(s1, x).timeout == Of(s, x).timeout
    ensures ServedInOrder(s, now, [e] + rest)
  {
    var order := [e] + rest;
    assert forall i | 0 < i < |order| :: order[i] == rest[i-1] && Due(s1, order[i], now);
    assert forall x | x in s.heap && Due(s, x, now) && x != e :: Due(s1, x, now);
  }

  lemma InHeap(s: State, e: Event)
    requires Inv(s) && e in s.heap
    ensures e in s.evs && e != s.sigEvent
  {
  }

  /** timeout_process as a whole. */
  lemma TimeoutProcessExact(s: State, now: Timeval, order: seq<Event>)
    requires Inv(s) && Serves(s, now, order)
    ensures Inv(ExpireAll(s, order)) && AllExpired(s, order, ExpireAll(s, order))
    ensures ServedInOrder(s, now, order)
    ensures forall x | x in ExpireAll(s, order).heap :: Later(Of(s, x).timeout, now)
  {
    hide Inv, Expire, ExpireAll;
    ServesExactly(s, now, order);
    DueKnown(s);
    ExpireAllEffect(s, order);
  }

  lemma DueKnown(s: State)
    requires Inv(s)
    ensures forall x | x in s.heap :: x in s.evs && x != s.sigEvent
  {
  }
}
