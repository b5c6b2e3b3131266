/** event_base_free: whatever is still registered, nothing is left when the base goes. */
module Teardown {
  import opened Seqs
  import opened Timevals
  import opened Events
  import opened MinHeaps
  import opened Epoll
  import opened BaseState
  import opened BaseInv
  import opened BaseRuns
  import opened BaseEffects
  import opened Dispatch
  import opened EventBases
  import opened BaseLoops
  import opened DispatchLoops

  /** The events of the program that are on some structure. */
  ghost function Pending(s: State): set<Event> {
    set e | e in s.evs && e != s.sigEvent && s.evs[e].flags * QUEUES != {}
  }

  /** What signal `i` did before the library took it over, as far as that is known. */
  ghost function Before(h: Handlers, i: int): Action {
    if i in h.saved then h.saved[i] else ActionOf(h, i)
  }

  /** Some of the actions saved in `h0` have been put back, and nothing else has changed. */
  ghost predicate Reverts(h0: Handlers, h: Handlers) {
    && (forall i :: i in h.saved ==> i in h0.saved && h.saved[i] == h0.saved[i])
    && (forall i :: Before(h, i) == Before(h0, i))
  }

  lemma RevertsMore(h0: Handlers, h: Handlers, sig: int)
    requires Reverts(h0, h)
    ensures Reverts(h0, Restore(h, sig))
  {
    forall i ensures Before(Restore(h, sig), i) == Before(h, i) {
    }
  }

  lemma RevertsNone(h: Handlers)
    ensures Reverts(h, h)
  {
  }

  lemma RevertsTwice(h0: Handlers, h1: Handlers, h2: Handlers)
    requires Reverts(h0, h1) && Reverts(h1, h2)
    ensures Reverts(h0, h2)
  {
  }

  lemma DelReverts(s: State, e: Event, h0: Handlers)
    requires Reverts(h0, s.handlers)
    ensures Reverts(h0, Del(s, e).0.handlers)
  {
    hide Reverts, Without, PollDel, Dequeue;
    DequeueBackend(s, e);
    RevertsMore(h0, s.handlers, Of(s, e).fd);
  }

  ghost predicate OnlyPipe(s: State, list: seq<Event>) {
    forall e | e in list :: e == s.sigEvent
  }

  lemma PendingOne(s: State, e: Event, q: Flag)
    requires e in s.evs && e != s.sigEvent && q in s.evs[e].flags && q in QUEUES
    ensures e in Pending(s)
  {
    assert q in s.evs[e].flags * QUEUES;
  }

  /** Deleting a pending event makes it, and no other, not pending. */
  lemma DelPending(s: State, e: Event)
    requires Inv(s) && e in Pending(s)
    ensures var s' := Del(s, e).0;
            && Inv(s') && s'.sigEvent == s.sigEvent && |s'.active| == |s.active| && s'.evs.Keys == s.evs.Keys
            && Pending(s') == Pending(s) - {e} && |Pending(s')| == |Pending(s)| - 1
            && s'.inserted == Without(s.inserted, e) && s'.heap == s.heap - {e}
            && s'.active == SetList(s.active, s.evs[e].pri, Without(ListAt(s.active, s.evs[e].pri), e))
  {
    hide Core, Wired, Del, Without;
    assert e in s.evs;
    DelInv(s, e);
    DelBackend(s, e);
    DelEvs(s, e);
    DelEffect(s, e) by { PipeFacts(s); }
    var s' := Del(s, e).0;
    assert (s.evs[e].flags - QUEUES) * QUEUES == {};
    assert Pending(s') == Pending(s) - {e};
  }

  /** Nothing but the event on the self-pipe is on a structure. */
  lemma OnlyPipeLeft(s: State)
    requires Inv(s) && s.heap == {} && OnlyPipe(s, s.inserted) && forall i | 0 <= i < |s.active| :: OnlyPipe(s, s.active[i])
    ensures Pending(s) == {}
  {
    hide Wired, Counts;
    forall e | e in s.evs && e != s.sigEvent ensures s.evs[e].flags * QUEUES == {} {
      assert Active in s.evs[e].flags ==> e in ListAt(s.active, s.evs[e].pri);
    }
  }

  /** Without pending events no counter, list or registration is left. */
  lemma NothingLeft(s: State)
    requires Core(s) && Slots(s) && Agree(s.poll) && forall e | e in s.evs :: s.evs[e].flags * QUEUES == {}
    ensures s.inserted == [] && s.heap == {} && (forall i | 0 <= i < |s.active| :: s.active[i] == [])
    ensures s.count == 0 && s.countActive == 0 && s.poll.kernel == map[]
  {
    forall e | e in s.evs ensures Inserted !in s.evs[e].flags && Active !in s.evs[e].flags && Timeout !in s.evs[e].flags {
      OffQueues(s, e);
    }
    HasHead(s.inserted);
    forall i | 0 <= i < |s.active| ensures s.active[i] == [] {
      ActiveHead(s, i);
    }
    EmptyTotal(s.active);
    assert Counted(s, Inserted) == {} && Counted(s, Active) == {} && Counted(s, Timeout) == {};
    forall fd | 0 <= fd < |s.poll.table| ensures s.poll.table[fd] == NO_SLOT {
      assert s.poll.table[fd].evread != null ==> InterestedIn(s, s.poll.table[fd].evread, fd, Read);
      assert s.poll.table[fd].evwrite != null ==> InterestedIn(s, s.poll.table[fd].evwrite, fd, Write);
    }
  }

  lemma HasHead(list: seq<Event>)
    ensures list == [] || list[0] in list
  {
  }

  lemma ActiveHead(s: State, i: nat)
    requires Core(s) && i < |s.active|
    ensures s.active[i] == [] || (s.active[i][0] in s.evs && Active in s.evs[s.active[i][0]].flags)
  {
    HasHead(s.active[i]);
  }

  lemma InsertedPosition(base: EventBase, done: seq<Event>, todo: seq<Event>)
    requires base.Valid() && Inv(base.view) && base.view.inserted == done + todo
    ensures done == [] ==> base.eventqueue.first == FirstLink(todo, InsertedLink)
    ensures todo != [] ==> todo[0] in base.view.evs && Inserted in base.view.evs[todo[0]].flags
                           && todo[0].inserted.home == todo[0] && todo[0].inserted.next == FirstLink(todo[1..], InsertedLink)
  {
    hide Wired, Counts, EventBase.TablesAgree, EventBase.LinksAgree, Tailq.Valid, Represents;
    EmptyFirst(base.eventqueue, base.view.inserted, InsertedLink);
    if todo != [] {
      assert base.view.inserted[|done|] == todo[0];
      assert todo[0] in base.view.inserted;
      Position(base.eventqueue, base.view.inserted, InsertedLink, |done|);
    }
  }

  lemma ActivePosition(base: EventBase, q: nat, done: seq<Event>, todo: seq<Event>)
    requires base.Valid() && Inv(base.view) && q < |base.view.active| && base.view.active[q] == done + todo
    ensures |base.activequeues| == |base.view.active|
    ensures done == [] ==> base.activequeues[q].first == FirstLink(todo, ActiveLink)
    ensures todo != [] ==> todo[0] in base.view.evs && Active in base.view.evs[todo[0]].flags && base.view.evs[todo[0]].pri == q
                           && todo[0].active.home == todo[0] && todo[0].active.next == FirstLink(todo[1..], ActiveLink)
  {
    hide Wired, Counts, EventBase.TablesAgree, EventBase.LinksAgree, Tailq.Valid, Represents;
    assert Represents(base.activequeues[q], base.view.active[q], ActiveLink);
    EmptyFirst(base.activequeues[q], base.view.active[q], ActiveLink);
    if todo != [] {
      assert base.view.active[q][|done|] == todo[0];
      assert todo[0] in base.view.active[q];
      Position(base.activequeues[q], base.view.active[q], ActiveLink, |done|);
    }
  }

  lemma PipeIsInternal(base: EventBase, e: Event)
    requires base.Valid() && Inv(base.view) && e in base.view.evs
    ensures Internal in e.ev_flags <==> e == base.view.sigEvent
  {
    hide Core, Slots, Signals, Agree;
    base.FieldsKnown(e);
  }

  /** What the loops of event_base_free keep. */
  ghost predicate Draining(s: State, s0: State, n_deleted: int) {
    && s.sigEvent == s0.sigEvent && |s.active| == |s0.active| && s.evs.Keys == s0.evs.Keys
    && n_deleted + |Pending(s)| == |Pending(s0)| && Reverts(s0.handlers, s.handlers)
  }

  lemma NoDupOf(s: State)
    requires Inv(s)
    ensures NoDup(s.inserted) && forall i | 0 <= i < |s.active| :: NoDup(s.active[i])
  {
    hide Wired, Counts;
  }

  lemma OnlyPipeStays(s: State, e: Event)
    requires Inv(s)
    ensures OnlyPipe(s, s.inserted) ==> OnlyPipe(s, Without(s.inserted, e))
  {
    hide Inv, Without;
    NoDupOf(s);
    WithoutMembers(s.inserted, e);
  }

  method DrainInserted(base: EventBase) returns (n_deleted: int)
    requires base.Valid() && Inv(base.view) && base in base.Repr
    modifies base, base.Repr
    ensures base.Valid() && base.Repr == old(base.Repr) && Inv(base.view)
    ensures Draining(base.view, old(base.view), n_deleted) && OnlyPipe(base.view, base.view.inserted)
  {
    hide EventBase.Valid, Inv, Del, Pending, Without, NoDup, Reverts;
    n_deleted := 0;
    RevertsNone(base.view.handlers);
    ghost var done: seq<Event>, todo: seq<Event> := [], base.view.inserted;
    InsertedPosition(base, done, todo);
    var link := base.eventqueue.first;
    while link != null
      invariant base.Valid() && base.Repr == old(base.Repr) && base in base.Repr && Inv(base.view)
      invariant Draining(base.view, old(base.view), n_deleted)
      invariant base.view.inserted == done + todo && OnlyPipe(base.view, done) && link == FirstLink(todo, InsertedLink)
      decreases |todo|
    {
      InsertedPosition(base, done, todo);
      var next := link.next;
      var ev := link.home;
      assert done + todo == done + [ev] + todo[1..];
      PipeIsInternal(base, ev);
      if Internal !in ev.ev_flags {
        NoDupOf(base.view);
        PendingOne(base.view, ev, Inserted);
        DelPending(base.view, ev);
        DelReverts(base.view, ev, old(base.view).handlers);
        WithoutMiddle(done, ev, todo[1..]);
        var r := base.EventDel(ev);
        n_deleted := n_deleted + 1;
      } else {
        done := done + [ev];
      }
      todo := todo[1..];
      link := next;
    }
  }

  method DrainTimers(base: EventBase) returns (n_deleted: int)
    requires base.Valid() && Inv(base.view) && base in base.Repr && OnlyPipe(base.view, base.view.inserted)
    modifies base, base.Repr
    ensures base.Valid() && base.Repr == old(base.Repr) && Inv(base.view)
    ensures Draining(base.view, old(base.view), n_deleted) && OnlyPipe(base.view, base.view.inserted) && base.view.heap == {}
  {
    hide EventBase.Valid, Inv, Del, Pending, MinHeap.Valid, Without, NoDup, Reverts;
    n_deleted := 0;
    RevertsNone(base.view.handlers);
    HeapKnown(base);
    var ev := base.timeheap.Top();
    while ev != null
      invariant base.Valid() && base.Repr == old(base.Repr) && base in base.Repr && Inv(base.view)
      invariant Draining(base.view, old(base.view), n_deleted) && OnlyPipe(base.view, base.view.inserted)
      invariant if ev == null then base.view.heap == {} else ev in base.view.heap
      decreases |base.view.heap|
    {
      HeapKnown(base);
      TimerPending(base.view, ev);
      DelPending(base.view, ev);
      DelReverts(base.view, ev, old(base.view).handlers);
      OnlyPipeStays(base.view, ev);
      ghost var was := base.view.heap;
      var r := base.EventDel(ev);
      Shrinks(was, ev);
      n_deleted := n_deleted + 1;
      HeapKnown(base);
      ev := base.timeheap.Top();
    }
  }

  lemma TimerPending(s: State, e: Event)
    requires Inv(s) && e in s.heap
    ensures e in Pending(s)
  {
    hide Counts, Slots, Signals, Agree;
    PendingOne(s, e, Timeout);
  }

  /** What draining one active queue leaves of the others. */
  ghost predicate Drained(s: State, upto: nat) {
    && OnlyPipe(s, s.inserted) && s.heap == {} && upto <= |s.active|
    && forall i | 0 <= i < upto :: OnlyPipe(s, s.active[i])
  }

  method DrainActive(base: EventBase, q: nat) returns (n_deleted: int)
    requires base.Valid() && Inv(base.view) && base in base.Repr && q < |base.view.active| && Drained(base.view, q)
    modifies base, base.Repr
    ensures base.Valid() && base.Repr == old(base.Repr) && Inv(base.view)
    ensures Draining(base.view, old(base.view), n_deleted) && Drained(base.view, q + 1)
  {
    hide EventBase.Valid, Inv, Del, Pending, Without, NoDup, Reverts;
    n_deleted := 0;
    RevertsNone(base.view.handlers);
    ghost var done: seq<Event>, todo: seq<Event> := [], base.view.active[q];
    ActivePosition(base, q, done, todo);
    var link := base.activequeues[q].first;
    while link != null
      invariant base.Valid() && base.Repr == old(base.Repr) && base in base.Repr && Inv(base.view)
      invariant Draining(base.view, old(base.view), n_deleted) && Drained(base.view, q) && q < |base.view.active|
      invariant base.view.active[q] == done + todo && OnlyPipe(base.view, done) && link == FirstLink(todo, ActiveLink)
      decreases |todo|
    {
      ActivePosition(base, q, done, todo);
      var next := link.next;
      var ev := link.home;
      assert done + todo == done + [ev] + todo[1..];
      PipeIsInternal(base, ev);
      if Internal !in ev.ev_flags {
        NoDupOf(base.view);
        PendingOne(base.view, ev, Active);
        DelPending(base.view, ev);
        DelReverts(base.view, ev, old(base.view).handlers);
        OnlyPipeStays(base.view, ev);
        WithoutMiddle(done, ev, todo[1..]);
        var r := base.EventDel(ev);
        n_deleted := n_deleted + 1;
      } else {
        done := done + [ev];
      }
      todo := todo[1..];
      link := next;
    }
  }

  /** epoll_dealloc up to the freeing: evsignal_dealloc takes out the internal event and puts
      back every action that is saved, also that of a signal without events. */
  method Dealloc(base: EventBase)
    requires base.Valid() && Inv(base.view) && base in base.Repr && Pending(base.view) == {}
    modifies base, base.Repr
    ensures base.Valid() && base.Repr == old(base.Repr)
    ensures Core(base.view) && Slots(base.view) && Agree(base.view.poll) && !base.view.sigAdded
    ensures forall e | e in base.view.evs :: base.view.evs[e].flags * QUEUES == {}
    ensures Reverts(old(base.view).handlers, base.view.handlers) && forall i | 0 <= i < NSIG :: i !in base.view.handlers.saved
  {
    hide EventBase.Valid, Inv, Core, Slots, Agree, Del, Reverts;
    RevertsNone(base.view.handlers);
    base.PipeKnown();
    base.FieldsKnown(base.ev_signal);
    PipeGone(base.view);
    ghost var h := base.view.handlers;
    if base.ev_signal_added {
      var r := base.EventDel(base.ev_signal);
      PipeKept(old(base.view));
      base.FieldsKnown(base.ev_signal);
      ClearPipe(base);
    }
    var i := 0;
    while i < NSIG
      invariant 0 <= i <= NSIG && base.Valid() && base.Repr == old(base.Repr) && base in base.Repr && base.ev_signal in base.view.evs
      invariant Core(base.view) && Slots(base.view) && Agree(base.view.poll) && !base.view.sigAdded
      invariant forall e | e in base.view.evs :: base.view.evs[e].flags * QUEUES == {}
      invariant Reverts(h, base.view.handlers) && forall j | 0 <= j < i :: j !in base.view.handlers.saved
    {
      base.FieldsKnown(base.ev_signal);
      if i in base.sh_old.saved {
        RevertsMore(h, base.view.handlers, i);
        RestoreHandler(base, i);
      }
      i := i + 1;
    }
  }

  method ClearPipe(base: EventBase)
    requires base.Valid() && Core(base.view) && Slots(base.view) && base.ev_signal in base.view.evs && base in base.Repr
    modifies base
    ensures base.Valid() && base.Repr == old(base.Repr) && base.view == old(base.view).(sigAdded := false)
    ensures Core(base.view) && Slots(base.view)
  {
    hide EventBase.Valid, Core, Slots;
    base.FieldsKnown(base.ev_signal);
    CoreSame(base.view, base.view.(sigAdded := false));
    SlotsSame(base.view, base.view.(sigAdded := false));
    base.ev_signal_added := false;
    base.view := base.view.(sigAdded := false);
    base.Rescaled();
  }

  /** _evsignal_restore_handler */
  method RestoreHandler(base: EventBase, evsignal: int)
    requires base.Valid() && Core(base.view) && Slots(base.view) && base.ev_signal in base.view.evs && base in base.Repr
    modifies base
    ensures base.Valid() && base.Repr == old(base.Repr)
    ensures base.view == old(base.view).(handlers := Restore(old(base.view).handlers, evsignal))
    ensures Core(base.view) && Slots(base.view)
  {
    hide EventBase.Valid, Core, Slots;
    base.FieldsKnown(base.ev_signal);
    CoreSame(base.view, base.view.(handlers := Restore(base.view.handlers, evsignal)));
    SlotsSame(base.view, base.view.(handlers := Restore(base.view.handlers, evsignal)));
    base.sh_old := Restore(base.sh_old, evsignal);
    base.view := base.view.(handlers := base.sh_old);
    base.Rescaled();
  }

  /** The internal event is inserted exactly if evsignal_dealloc deletes it. */
  lemma PipeGone(s: State)
    requires Inv(s) && Pending(s) == {}
    ensures Core(s) && Slots(s) && Agree(s.poll) && s.sigEvent in s.evs
    ensures forall e | e in s.evs && e != s.sigEvent :: s.evs[e].flags * QUEUES == {}
    ensures !s.sigAdded ==> s.evs[s.sigEvent].flags * QUEUES == {}
  {
    hide Core, Slots, Signals, Agree;
    assert forall e | e in s.evs && e != s.sigEvent :: e !in Pending(s);
  }

  lemma PipeKept(s: State)
    requires Inv(s) && Pending(s) == {} && s.sigAdded
    ensures var s' := Del(s, s.sigEvent).0;
            && Core(s') && Slots(s') && Agree(s'.poll) && s'.evs.Keys == s.evs.Keys
            && (forall e | e in s'.evs :: s'.evs[e].flags * QUEUES == {}) && s'.handlers == s.handlers
  {
    hide Core, Slots, Signals, Agree, Del;
    var e := s.sigEvent;
    PipeGone(s);
    DelCore(s, e);
    DelBackend(s, e);
    ShapeOf(s, e);
    assert Read in s.evs[e].events * IO_EVENTS;
    SlotsLeave(s, Del(s, e).0, e);
    assert (s.evs[e].flags - QUEUES) * QUEUES == {};
  }

  /** event_base_free up to the freeing of memory.  Its loops terminate although they
      delete from the lists they walk, each pending event is deleted once, and at the
      end, when the asserts look, all is empty. */
  method EventBaseFree(base: EventBase) returns (n_deleted: int)
    requires base.Valid() && Inv(base.view) && base in base.Repr
    modifies base, base.Repr
    ensures n_deleted == |Pending(old(base.view))|
    ensures base.Valid() && base.event_count == 0 && base.event_count_active == 0
    ensures forall i | 0 <= i < |base.activequeues| :: base.activequeues[i].first == null
    ensures base.timeheap.n == 0 && base.eventqueue.first == null
    ensures base.evbase.View().kernel == map[]
    ensures forall i | 0 <= i < NSIG :: i !in base.sh_old.saved && ActionOf(base.sh_old, i) == Before(old(base.sh_old), i)
  {
    hide EventBase.Valid, Inv, Del, Pending, Core, Slots, Agree, OnlyPipe, Reverts;
    ghost var h := base.view.handlers;
    HandlersKnown(base);
    n_deleted := DrainInserted(base);
    ghost var h0 := base.view.handlers;
    var n := DrainTimers(base);
    RevertsTwice(h, h0, base.view.handlers);
    n_deleted := n_deleted + n;
    base.PipeKnown();
    base.FieldsKnown(base.ev_signal);
    var i := 0;
    while i < |base.activequeues|
      invariant base.Valid() && base.Repr == old(base.Repr) && base in base.Repr && Inv(base.view)
      invariant i <= |base.activequeues| == |base.view.active|
      invariant Draining(base.view, old(base.view), n_deleted) && Drained(base.view, i)
    {
      ghost var h1 := base.view.handlers;
      n := DrainActive(base, i);
      RevertsTwice(h, h1, base.view.handlers);
      n_deleted := n_deleted + n;
      i := i + 1;
    }
    OnlyPipeLeft(base.view);
    h0 := base.view.handlers;
    Dealloc(base);
    RevertsTwice(h, h0, base.view.handlers);
    AllReverted(h, base.view.handlers);
    NothingLeft(base.view);
    Freed(base);
  }

  lemma HandlersKnown(base: EventBase)
    requires base.Valid()
    ensures base.sh_old == base.view.handlers
  {
  }

  lemma AllReverted(h0: Handlers, h: Handlers)
    requires Reverts(h0, h) && forall i | 0 <= i < NSIG :: i !in h.saved
    ensures forall i | 0 <= i < NSIG :: ActionOf(h, i) == Before(h0, i)
  {
    forall i | 0 <= i < NSIG ensures ActionOf(h, i) == Before(h0, i) {
      assert Before(h, i) == Before(h0, i);
    }
  }

  lemma Freed(base: EventBase)
    requires base.Valid() && base.view.inserted == [] && base.view.heap == {}
    requires forall i | 0 <= i < |base.view.active| :: base.view.active[i] == []
    ensures base.event_count == base.view.count && base.event_count_active == base.view.countActive
    ensures forall i | 0 <= i < |base.activequeues| :: base.activequeues[i].first == null
    ensures base.timeheap.n == 0 && base.eventqueue.first == null
    ensures base.evbase.View() == base.view.poll && base.sh_old == base.view.handlers
  {
    assert forall i | 0 <= i < |base.activequeues| :: Represents(base.activequeues[i], base.view.active[i], ActiveLink);
  }
}
