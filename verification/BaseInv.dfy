/** The invariant of an event base and its preservation by every call of the API. */
module BaseInv {
  import opened Seqs
  import opened Timevals
  import opened Events
  import opened Epoll
  import opened BaseState

  ghost predicate On(s: State, e: Event, q: Flag) {
    q in Of(s, e).flags
  }

  /** What one event is like: fixed by event_set and event_priority_set, but for ev_pncalls,
      which points at no pass to come, and at none at all while the event is active. */
  ghost predicate Shape(s: State, ev: Ev) {
    && 0 <= ev.pri < |s.active| && 0 <= ev.ncalls < 0x1_0000
    && ev.pncalls <= s.cell.pass && (Active in ev.flags ==> ev.pncalls == 0)
    && (ev.events * IO_EVENTS != {} ==> ev.fd >= 0 && Signal !in ev.events)
    && (Signal in ev.events ==> 0 <= ev.fd < NSIG)
  }

  ghost predicate InsertedList(s: State) {
    && NoDup(s.inserted)
    && (forall e | e in s.inserted :: e in s.evs && Inserted in s.evs[e].flags)
    && (forall e | e in s.evs && Inserted in s.evs[e].flags :: e in s.inserted)
  }

  ghost predicate TimerHeap(s: State) {
    && (forall e | e in s.heap :: e in s.evs && Timeout in s.evs[e].flags)
    && (forall e | e in s.evs && Timeout in s.evs[e].flags :: e in s.heap)
    && |s.heap| <= s.cap
  }

  ghost predicate ActiveQueues(s: State) {
    && (forall i | 0 <= i < |s.active| :: NoDup(s.active[i]))
    && (forall i, e | 0 <= i < |s.active| && e in s.active[i] ::
          e in s.evs && Active in s.evs[e].flags && s.evs[e].pri == i)
    && (forall e | e in s.evs && Active in s.evs[e].flags :: e in ListAt(s.active, s.evs[e].pri))
  }

  /** Every flag tells the truth: an event has it exactly when it is on that structure,
      and it is on each structure at most once and on no active queue but that of its
      own priority. */
  ghost predicate Lists(s: State) {
    InsertedList(s) && TimerHeap(s) && ActiveQueues(s)
  }

  ghost function Counted(s: State, q: Flag): set<Event> {
    set e | e in s.evs && q in s.evs[e].flags && Internal !in s.evs[e].flags
  }

  ghost function TotalLen(lists: seq<seq<Event>>): nat {
    if lists == [] then 0 else |lists[0]| + TotalLen(lists[1..])
  }

  /** event_count counts every non-internal event once for each structure it is on, and
      event_count_active the entries of all active queues. */
  ghost predicate Counts(s: State) {
    && s.count == |Counted(s, Inserted)| + |Counted(s, Active)| + |Counted(s, Timeout)|
    && s.countActive == TotalLen(s.active)
  }

  ghost predicate Core(s: State) {
    && (forall e | e in s.evs :: Shape(s, s.evs[e]))
    && Lists(s) && Counts(s)
  }

  /** The readers and writers in the table are exactly the inserted I/O events. */
  ghost predicate Slots(s: State) {
    && |s.poll.table| > 0
    && (forall e | e in s.evs && On(s, e, Inserted) :: s.evs[e].events * (IO_EVENTS + {Signal}) != {})
    && (forall e | e in s.evs && On(s, e, Inserted) && Read in s.evs[e].events ::
          At(s.poll.table, s.evs[e].fd).evread == e)
    && (forall e | e in s.evs && On(s, e, Inserted) && Write in s.evs[e].events ::
          At(s.poll.table, s.evs[e].fd).evwrite == e)
    && (forall fd | 0 <= fd < |s.poll.table| && s.poll.table[fd].evread != null ::
          InterestedIn(s, s.poll.table[fd].evread, fd, Read))
    && (forall fd | 0 <= fd < |s.poll.table| && s.poll.table[fd].evwrite != null ::
          InterestedIn(s, s.poll.table[fd].evwrite, fd, Write))
  }

  ghost predicate InterestedIn(s: State, e: Event, fd: int, what: What) {
    e in s.evs && On(s, e, Inserted) && what in s.evs[e].events && s.evs[e].fd == fd
  }

  /** evsignal_handler is installed, and an action saved. */
  predicate Handled(h: Handlers, sig: int) {
    sig in h.saved && ActionOf(h, sig) == Ours
  }

  /** Signals with a list that are handled in `s` are handled in `s'`. */
  ghost predicate StillHandled(s: State, s': State) {
    forall i | 0 <= i < |s.sigs| && s.sigs[i] != [] && Handled(s.handlers, i) :: Handled(s'.handlers, i)
  }

  /** The signal lists hold exactly the inserted signal events, each under its number,
      and every signal with a list has the handler installed. */
  ghost predicate Signals(s: State) {
    && |s.sigs| == NSIG
    && (forall i | 0 <= i < NSIG :: NoDup(s.sigs[i]))
    && (forall i, e | 0 <= i < NSIG && e in s.sigs[i] :: InterestedIn(s, e, i, Signal))
    && (forall e | e in s.evs && On(s, e, Inserted) && Signal in s.evs[e].events ::
          e in ListAt(s.sigs, s.evs[e].fd))
    && (forall i | 0 <= i < NSIG && s.sigs[i] != [] :: Handled(s.handlers, i) && s.sigAdded)
  }

  /** The event on the self-pipe is the only internal one, it watches a descriptor of its
      own, it never has a timeout, and it is inserted exactly if ev_signal_added is set. */
  ghost predicate SelfPipe(s: State) {
    && s.sigEvent in s.evs
    && (forall e | e in s.evs :: Internal in s.evs[e].flags <==> e == s.sigEvent)
    && s.evs[s.sigEvent].events == {Read, Persist}
    && (forall e | e in s.evs && e != s.sigEvent && Read in s.evs[e].events :: s.evs[e].fd != s.evs[s.sigEvent].fd)
    && !On(s, s.sigEvent, Timeout)
    && (On(s, s.sigEvent, Inserted) <==> s.sigAdded)
    && (On(s, s.sigEvent, Active) ==> s.sigAdded)
  }

  ghost predicate Wired(s: State) {
    Slots(s) && Agree(s.poll) && Signals(s) && SelfPipe(s)
  }

  ghost predicate Inv(s: State) {
    Core(s) && Wired(s)
  }

  // ----- the queues -----

  lemma {:induction false} TotalLenUpdate(lists: seq<seq<Event>>, i: nat, list: seq<Event>)
    requires i < |lists|
    ensures TotalLen(lists[i := list]) == TotalLen(lists) - |lists[i]| + |list|
  {
    var l' := lists[i := list];
    if i > 0 {
      TotalLenUpdate(lists[1..], i - 1, list);
      assert l'[1..] == lists[1..][i-1 := list];
    } else {
      assert l'[1..] == lists[1..];
    }
  }

  /** When one event's flags change and nothing else, the counted sets follow. */
  lemma CountedUpdate(s: State, s': State, e: Event, ev': Ev, q: Flag)
    requires e in s.evs && s'.evs == s.evs[e := ev']
    requires Internal in ev'.flags <==> Internal in s.evs[e].flags
    ensures |Counted(s', q)| == |Counted(s, q)| - CountOf(s.evs[e], q) + CountOf(ev', q)
  {
    var c, c' := Counted(s, q), Counted(s', q);
    assert c - {e} == c' - {e};
    assert |c| == |c - {e}| + CountOf(s.evs[e], q);
    assert |c'| == |c' - {e}| + CountOf(ev', q);
  }

  ghost function CountOf(ev: Ev, q: Flag): nat {
    if q in ev.flags && Internal !in ev.flags then 1 else 0
  }

  lemma QInsertCounts(s: State, e: Event, q: Flag)
    requires Counts(s) && e in s.evs && q in QUEUES && !On(s, e, q) && 0 <= s.evs[e].pri < |s.active|
    ensures Counts(QInsert(s, e, q))
  {
    var s', ev' := QInsert(s, e, q), s.evs[e].(flags := s.evs[e].flags + {q});
    CountedUpdate(s, s', e, ev', Inserted);
    CountedUpdate(s, s', e, ev', Active);
    CountedUpdate(s, s', e, ev', Timeout);
    if q == Active {
      TotalLenUpdate(s.active, s.evs[e].pri, s.active[s.evs[e].pri] + [e]);
    }
  }

  lemma QRemoveCounts(s: State, e: Event, q: Flag)
    requires Counts(s) && e in s.evs && q in QUEUES && On(s, e, q) && 0 <= s.evs[e].pri < |s.active|
    requires q == Active ==> NoDup(s.active[s.evs[e].pri]) && e in s.active[s.evs[e].pri]
    ensures Counts(QRemove(s, e, q))
  {
    var s', ev' := QRemove(s, e, q), s.evs[e].(flags := s.evs[e].flags - {q});
    CountedUpdate(s, s', e, ev', Inserted);
    CountedUpdate(s, s', e, ev', Active);
    CountedUpdate(s, s', e, ev', Timeout);
    if q == Active {
      var list := s.active[s.evs[e].pri];
      WithoutMembers(list, e);
      TotalLenUpdate(s.active, s.evs[e].pri, Without(list, e));
    }
  }

  /** `s'` differs from `s` only in what it says about `e`, and there not in flag `q`. */
  ghost predicate SameFlag(s: State, s': State, e: Event, q: Flag) {
    e in s.evs && s'.evs == s.evs[e := Of(s', e)] && (q in Of(s', e).flags <==> q in s.evs[e].flags)
  }

  lemma InsertedFrame(s: State, s': State, e: Event)
    requires InsertedList(s) && SameFlag(s, s', e, Inserted) && s'.inserted == s.inserted
    ensures InsertedList(s')
  {
  }

  lemma TimerFrame(s: State, s': State, e: Event)
    requires TimerHeap(s) && SameFlag(s, s', e, Timeout) && s'.heap == s.heap && s'.cap >= s.cap
    ensures TimerHeap(s')
  {
  }

  lemma ActiveFrame(s: State, s': State, e: Event)
    requires ActiveQueues(s) && SameFlag(s, s', e, Active) && s'.active == s.active
    requires Active in s.evs[e].flags ==> Of(s', e).pri == s.evs[e].pri
    ensures ActiveQueues(s')
  {
  }

  lemma InsertedInsert(s: State, e: Event)
    requires InsertedList(s) && e in s.evs && !On(s, e, Inserted)
    ensures InsertedList(QInsert(s, e, Inserted))
  {
  }

  lemma InsertedRemove(s: State, e: Event)
    requires InsertedList(s) && e in s.evs && On(s, e, Inserted)
    ensures InsertedList(QRemove(s, e, Inserted))
  {
    WithoutMembers(s.inserted, e);
    var s' := QRemove(s, e, Inserted);
    assert s'.inserted == Without(s.inserted, e);
  }

  lemma TimerInsert(s: State, e: Event)
    requires TimerHeap(s) && e in s.evs && |s.heap| < s.cap
    ensures TimerHeap(QInsert(s, e, Timeout))
  {
  }

  lemma TimerRemove(s: State, e: Event)
    requires TimerHeap(s) && e in s.evs
    ensures TimerHeap(QRemove(s, e, Timeout))
  {
  }

  lemma ActiveInsert(s: State, e: Event)
    requires ActiveQueues(s) && e in s.evs && !On(s, e, Active) && 0 <= s.evs[e].pri < |s.active|
    ensures ActiveQueues(QInsert(s, e, Active))
  {
    var s', pri := QInsert(s, e, Active), s.evs[e].pri;
    var list := s.active[pri];
    assert s'.active[pri] == list + [e];
    assert forall i, x | 0 <= i < |s'.active| && x in s'.active[i] :: x in s.active[i] || (x == e && i == pri);
    assert forall i, x | 0 <= i < |s.active| && x in s.active[i] :: x in s'.active[i];
  }

  lemma ActiveRemove(s: State, e: Event)
    requires ActiveQueues(s) && e in s.evs && On(s, e, Active) && 0 <= s.evs[e].pri < |s.active|
    ensures ActiveQueues(QRemove(s, e, Active))
  {
    var s', pri := QRemove(s, e, Active), s.evs[e].pri;
    WithoutMembers(s.active[pri], e);
    assert s'.active[pri] == Without(s.active[pri], e);
    assert forall i, x | 0 <= i < |s'.active| && x in s'.active[i] :: x in s.active[i] && x != e;
    assert forall i, x | 0 <= i < |s.active| && x in s.active[i] && x != e :: x in s'.active[i];
  }

  lemma QInsertLists(s: State, e: Event, q: Flag)
    requires Lists(s) && e in s.evs && q in QUEUES && !On(s, e, q) && 0 <= s.evs[e].pri < |s.active|
    requires q == Timeout ==> |s.heap| < s.cap
    ensures Lists(QInsert(s, e, q))
  {
    hide InsertedList, ActiveQueues, TimerHeap;
    var s' := QInsert(s, e, q);
    if q == Inserted { InsertedInsert(s, e); } else { InsertedFrame(s, s', e); }
    if q == Active { ActiveInsert(s, e); } else { ActiveFrame(s, s', e); }
    if q == Timeout { TimerInsert(s, e); } else { TimerFrame(s, s', e); }
  }

  lemma QRemoveLists(s: State, e: Event, q: Flag)
    requires Lists(s) && e in s.evs && q in QUEUES && On(s, e, q) && 0 <= s.evs[e].pri < |s.active|
    ensures Lists(QRemove(s, e, q))
  {
    hide InsertedList, ActiveQueues, TimerHeap;
    var s' := QRemove(s, e, q);
    if q == Inserted { InsertedRemove(s, e); } else { InsertedFrame(s, s', e); }
    if q == Active { ActiveRemove(s, e); } else { ActiveFrame(s, s', e); }
    if q == Timeout { TimerRemove(s, e); } else { TimerFrame(s, s', e); }
  }

  /** event_queue_insert on a structure the event is not on keeps flags, lists and
      counters in step; the timer heap must have a free slot. */
  lemma QInsertCore(s: State, e: Event, q: Flag)
    requires Core(s) && e in s.evs && q in QUEUES && !On(s, e, q)
    requires q == Timeout ==> |s.heap| < s.cap
    requires q == Active ==> s.evs[e].pncalls == 0
    ensures Core(QInsert(s, e, q))
  {
    hide Lists, Counts;
    QInsertLists(s, e, q);
    QInsertCounts(s, e, q);
  }

  /** So does event_queue_remove of an event that is on the structure. */
  lemma QRemoveCore(s: State, e: Event, q: Flag)
    requires Core(s) && e in s.evs && q in QUEUES && On(s, e, q)
    ensures Core(QRemove(s, e, q))
  {
    hide Counts;
    QRemoveLists(s, e, q);
    QRemoveCounts(s, e, q);
  }

  // ----- steps that leave the lists alone -----

  /** `s'` differs from `s` in event `e` only, whose static part is the same. */
  ghost predicate Touches(s: State, s': State, e: Event) {
    && e in s.evs && s'.evs == s.evs[e := Of(s', e)]
    && Of(s', e).events == s.evs[e].events && Of(s', e).fd == s.evs[e].fd
    && (Internal in Of(s', e).flags <==> Internal in s.evs[e].flags)
  }

  ghost predicate SameLists(s: State, s': State) {
    && s'.inserted == s.inserted && s'.active == s.active && s'.heap == s.heap && s'.cap >= s.cap
    && s'.count == s.count && s'.countActive == s.countActive && s'.cell.pass >= s.cell.pass
  }

  /** Changing neither flags nor, while it is active, the priority of an event keeps Core. */
  lemma CoreFrame(s: State, s': State, e: Event)
    requires Core(s) && Touches(s, s', e) && SameLists(s, s')
    requires Of(s', e).flags == s.evs[e].flags && Shape(s, Of(s', e))
    requires Active in s.evs[e].flags ==> Of(s', e).pri == s.evs[e].pri
    ensures Core(s')
  {
    hide Lists, TotalLen;
    ListsFrame(s, s', e);
    CountedUpdate(s, s', e, Of(s', e), Inserted);
    CountedUpdate(s, s', e, Of(s', e), Active);
    CountedUpdate(s, s', e, Of(s', e), Timeout);
  }

  lemma ListsFrame(s: State, s': State, e: Event)
    requires Lists(s) && e in s.evs && s'.evs == s.evs[e := Of(s', e)] && SameLists(s, s')
    requires Of(s', e).flags == s.evs[e].flags
    requires Active in s.evs[e].flags ==> Of(s', e).pri == s.evs[e].pri
    ensures Lists(s')
  {
    hide InsertedList, ActiveQueues, TimerHeap;
    InsertedFrame(s, s', e);
    TimerFrame(s, s', e);
    ActiveFrame(s, s', e);
  }

  lemma CoreSame(s: State, s': State)
    requires Core(s) && s'.evs == s.evs && SameLists(s, s')
    ensures Core(s')
  {
    assert Counted(s', Inserted) == Counted(s, Inserted);
    assert Counted(s', Active) == Counted(s, Active);
    assert Counted(s', Timeout) == Counted(s, Timeout);
  }

  lemma RemoveIfOnCore(s: State, e: Event, q: Flag)
    requires Core(s) && e in s.evs && q in QUEUES
    ensures Core(RemoveIfOn(s, e, q)) && Touches(s, RemoveIfOn(s, e, q), e) && !On(RemoveIfOn(s, e, q), e, q)
    ensures Of(RemoveIfOn(s, e, q), e) == s.evs[e].(flags := s.evs[e].flags - {q})
  {
    hide Core;
    if On(s, e, q) {
      QRemoveCore(s, e, q);
    } else {
      assert s.evs[e].flags - {q} == s.evs[e].flags;
    }
  }

  // ----- event_del -----

  lemma DequeueCore(s: State, e: Event)
    requires Core(s) && e in s.evs
    ensures Core(Dequeue(s, e)) && Touches(s, Dequeue(s, e), e)
    ensures Of(Dequeue(s, e), e) == s.evs[e].(flags := s.evs[e].flags - {Timeout, Active})
  {
    hide Core, RemoveIfOn;
    var s1 := Cancel(s, e);
    CoreSame(s, s1);
    RemoveIfOnCore(s1, e, Timeout);
    RemoveIfOnCore(RemoveIfOn(s1, e, Timeout), e, Active);
  }

  lemma DelCore(s: State, e: Event)
    requires Core(s) && e in s.evs
    ensures Core(Del(s, e).0) && Touches(s, Del(s, e).0, e)
    ensures Of(Del(s, e).0, e) == s.evs[e].(flags := s.evs[e].flags - QUEUES)
  {
    hide Core, Dequeue;
    var s1 := Dequeue(s, e);
    DequeueCore(s, e);
    if On(s1, e, Inserted) {
      QRemoveCore(s1, e, Inserted);
      CoreSame(QRemove(s1, e, Inserted), Del(s, e).0);
    }
  }

  /** `s'` is `s` without `e` on the inserted list, as far as the backend is concerned. */
  ghost predicate Leaves(s: State, s': State, e: Event) {
    && Touches(s, s', e) && On(s, e, Inserted) && !On(s', e, Inserted)
    && s'.sigEvent == s.sigEvent && s'.sigAdded == s.sigAdded
  }

  lemma SlotsLeave(s: State, s': State, e: Event)
    requires Slots(s) && Agree(s.poll) && Leaves(s, s', e) && Shape(s, s.evs[e])
    requires s.evs[e].events * IO_EVENTS != {}
    requires s'.poll == PollDel(s.poll, s.evs[e].fd, s.evs[e].events, true).0
    ensures PollDel(s.poll, s.evs[e].fd, s.evs[e].events, true).1
    ensures Slots(s') && Agree(s'.poll)
  {
    hide PollDel, Agree;
    var ev, table, table' := s.evs[e], s.poll.table, s'.poll.table;
    assert Read in ev.events || Write in ev.events;
    DelAgrees(s.poll, ev.fd, ev.events, true);
    forall fd | 0 <= fd < |table'| && table'[fd].evread != null
      ensures InterestedIn(s', table'[fd].evread, fd, Read) {
      assert At(table', fd).evread == At(table, fd).evread;
      assert InterestedIn(s, table[fd].evread, fd, Read);
    }
    forall fd | 0 <= fd < |table'| && table'[fd].evwrite != null
      ensures InterestedIn(s', table'[fd].evwrite, fd, Write) {
      assert At(table', fd).evwrite == At(table, fd).evwrite;
      assert InterestedIn(s, table[fd].evwrite, fd, Write);
    }
  }

  lemma SignalsLeave(s: State, s': State, e: Event)
    requires Signals(s) && Leaves(s, s', e) && Shape(s, s.evs[e])
    requires Signal in s.evs[e].events
    requires s'.sigs == SigDel(s, e).sigs && s'.handlers == SigDel(s, e).handlers
    ensures Signals(s')
  {
    var sig := s.evs[e].fd;
    var list := Without(s.sigs[sig], e);
    WithoutMembers(s.sigs[sig], e);
    assert s'.sigs[sig] == list;
    forall i, x | 0 <= i < NSIG && x in s'.sigs[i] ensures InterestedIn(s', x, i, Signal) {
      assert x in s.sigs[i] && InterestedIn(s, x, i, Signal) && x != e;
    }
  }

  /** The backend does not notice a change that leaves the Inserted flags alone. */
  lemma SlotsFrame(s: State, s': State, e: Event)
    requires Slots(s) && Touches(s, s', e) && s'.poll == s.poll
    requires On(s', e, Inserted) <==> On(s, e, Inserted)
    ensures Slots(s')
  {
    forall fd | 0 <= fd < |s.poll.table| && s.poll.table[fd].evread != null
      ensures InterestedIn(s', s.poll.table[fd].evread, fd, Read) {
      assert InterestedIn(s, s.poll.table[fd].evread, fd, Read);
    }
    forall fd | 0 <= fd < |s.poll.table| && s.poll.table[fd].evwrite != null
      ensures InterestedIn(s', s.poll.table[fd].evwrite, fd, Write) {
      assert InterestedIn(s, s.poll.table[fd].evwrite, fd, Write);
    }
  }

  lemma SlotsOther(s: State, s': State, e: Event)
    requires Slots(s) && Touches(s, s', e) && s'.poll == s.poll
    requires s.evs[e].events * IO_EVENTS == {} && Signal in s.evs[e].events
    ensures Slots(s')
  {
    forall fd | 0 <= fd < |s.poll.table| && s.poll.table[fd].evread != null
      ensures InterestedIn(s', s.poll.table[fd].evread, fd, Read) {
      assert InterestedIn(s, s.poll.table[fd].evread, fd, Read);
    }
    forall fd | 0 <= fd < |s.poll.table| && s.poll.table[fd].evwrite != null
      ensures InterestedIn(s', s.poll.table[fd].evwrite, fd, Write) {
      assert InterestedIn(s, s.poll.table[fd].evwrite, fd, Write);
    }
  }

  lemma SignalsFrame(s: State, s': State, e: Event)
    requires Signals(s) && Touches(s, s', e) && s'.sigs == s.sigs && StillHandled(s, s')
    requires s.sigAdded ==> s'.sigAdded
    requires (On(s', e, Inserted) <==> On(s, e, Inserted)) || Signal !in s.evs[e].events
    ensures Signals(s')
  {
    forall i, x | 0 <= i < NSIG && x in s'.sigs[i] ensures InterestedIn(s', x, i, Signal) {
      assert InterestedIn(s, x, i, Signal);
    }
  }

  lemma SelfPipeFrame(s: State, s': State, e: Event)
    requires SelfPipe(s) && Touches(s, s', e) && s'.sigEvent == s.sigEvent && s'.sigAdded == s.sigAdded
    requires e == s.sigEvent ==> (On(s', e, Inserted) <==> On(s, e, Inserted)) && !On(s', e, Timeout)
                                 && (On(s', e, Active) ==> s.sigAdded)
    ensures SelfPipe(s')
  {
  }

  lemma NeverInserted(s: State, e: Event)
    requires Slots(s) && e in s.evs && s.evs[e].events * IO_EVENTS == {} && Signal !in s.evs[e].events
    ensures !On(s, e, Inserted)
  {
    assert s.evs[e].events * (IO_EVENTS + {Signal}) == {};
  }

  lemma ShapeOf(s: State, e: Event)
    requires Core(s) && e in s.evs
    ensures Shape(s, s.evs[e])
  {
  }

  /** What `s` and `s'` have in common when only queues and event fields were worked on. */
  ghost predicate SameBackend(s: State, s': State) {
    && s'.poll == s.poll && s'.sigs == s.sigs && s'.handlers == s.handlers
    && s'.sigEvent == s.sigEvent && s'.sigAdded == s.sigAdded
    && |s'.active| == |s.active| && s'.cap == s.cap && s'.broken == s.broken
  }

  ghost predicate SameStatic(s: State, s': State, e: Event) {
    && Of(s', e).fd == Of(s, e).fd && Of(s', e).events == Of(s, e).events && Of(s', e).pri == Of(s, e).pri
  }

  lemma RemoveIfOnBackend(s: State, e: Event, q: Flag)
    ensures SameBackend(s, RemoveIfOn(s, e, q)) && SameStatic(s, RemoveIfOn(s, e, q), e)
    ensures q != Inserted ==> RemoveIfOn(s, e, q).inserted == s.inserted
    ensures forall f | f != q :: On(RemoveIfOn(s, e, q), e, f) <==> On(s, e, f)
  {
    hide Without;
  }

  lemma DequeueBackend(s: State, e: Event)
    ensures SameBackend(s, Dequeue(s, e)) && SameStatic(s, Dequeue(s, e), e)
    ensures On(Dequeue(s, e), e, Inserted) <==> On(s, e, Inserted)
    ensures Dequeue(s, e).inserted == s.inserted
  {
    hide RemoveIfOn;
    RemoveIfOnBackend(Cancel(s, e), e, Timeout);
    RemoveIfOnBackend(RemoveIfOn(Cancel(s, e), e, Timeout), e, Active);
  }

  /** The backend's share of event_del. */
  lemma DelBackend(s: State, e: Event)
    ensures var (s', r) := Del(s, e);
            var ev := Of(s, e);
            if Inserted !in ev.flags then SameBackend(s, s') && r == 0
            else if Signal in ev.events then
              SameBackend(s.(sigs := SigDel(s, e).sigs, handlers := SigDel(s, e).handlers), s') && r == 0
            else
              && SameBackend(s.(poll := PollDel(s.poll, ev.fd, ev.events, true).0), s')
              && (r == 0 <==> PollDel(s.poll, ev.fd, ev.events, true).1)
  {
    hide PollDel, Without, Dequeue;
    DequeueBackend(s, e);
  }

  /** event_del takes the event off every structure, clears its slot or list entry, and
      leaves base, kernel and signal lists in agreement; every epoll_ctl it makes is legal. */
  lemma DelInv(s: State, e: Event)
    requires Inv(s) && e in s.evs && e != s.sigEvent
    ensures Inv(Del(s, e).0) && Del(s, e).1 == 0
    ensures Touches(s, Del(s, e).0, e) && Of(Del(s, e).0, e) == s.evs[e].(flags := s.evs[e].flags - QUEUES)
  {
    hide Core, Slots, Signals, SelfPipe, Agree, Touches, PollDel;
    DelCore(s, e);
    ShapeOf(s, e);
    var s' := Del(s, e).0;
    DelBackend(s, e);
    if !On(s, e, Inserted) {
      SlotsFrame(s, s', e);
      SignalsFrame(s, s', e);
    } else if Signal in s.evs[e].events {
      SignalsLeave(s, s', e);
      SlotsOther(s, s', e);
    } else if s.evs[e].events * IO_EVENTS != {} {
      SlotsLeave(s, s', e);
      SignalsFrame(s, s', e);
    } else {
      NeverInserted(s, e);
    }
    SelfPipeFrame(s, s', e);
  }

  /** If the kernel may refuse: event_del says so, and keeps the invariant, exactly if there
      was nothing to ask the kernel or it accepted.  A refusal leaves a registration that no
      reader or writer stands for, and everything else as it would be. */
  lemma DelExactly(s: State, e: Event, accept: bool)
    requires Inv(s) && e in s.evs && e != s.sigEvent
    ensures var (s', r) := Del(s, e, accept);
            && (Inv(s') <==> accept || !On(s, e, Inserted) || Signal in s.evs[e].events)
            && r == (if Inv(s') then 0 else -1)
            && s' == Del(s, e).0.(poll := s'.poll) && s'.poll.table == Del(s, e).0.poll.table
            && (r == -1 ==> s'.poll.kernel == s.poll.kernel)
  {
    hide Core, Slots, Signals, SelfPipe, Agree, Touches, PollDel, Dequeue, Without;
    DelInv(s, e);
    DequeueBackend(s, e);
    if !accept && On(s, e, Inserted) && Signal !in s.evs[e].events {
      RefusedAgree(s, e);
    }
  }

  lemma RefusedAgree(s: State, e: Event)
    requires Inv(s) && e in s.evs && On(s, e, Inserted) && Signal !in s.evs[e].events
    ensures var (p, ok) := PollDel(s.poll, s.evs[e].fd, s.evs[e].events, false);
            var (p', ok') := PollDel(s.poll, s.evs[e].fd, s.evs[e].events, true);
            !ok && !Agree(p) && p.table == p'.table && p.kernel == s.poll.kernel
  {
    hide Core, Signals, SelfPipe, Agree, PollDel;
    ShapeOf(s, e);
    assert s.evs[e].events * (IO_EVENTS + {Signal}) != {};
    var w :| w in s.evs[e].events * (IO_EVENTS + {Signal});
    DelAgrees(s.poll, s.evs[e].fd, s.evs[e].events, false);
    RefusedTable(s.poll, s.evs[e].fd, s.evs[e].events);
  }

  lemma RefusedTable(p: Poll, fd: int, events: set<What>)
    ensures PollDel(p, fd, events, false).0 == Poll(PollDel(p, fd, events, true).0.table, p.kernel)
  {
  }

  // ----- event_add -----

  /** No other inserted event has the event's descriptor and direction. */
  ghost predicate FreeFor(s: State, e: Event) {
    && (Read in Of(s, e).events ==> At(s.poll.table, Of(s, e).fd).evread == null)
    && (Write in Of(s, e).events ==> At(s.poll.table, Of(s, e).fd).evwrite == null)
  }

  ghost predicate Joins(s: State, s': State, e: Event) {
    && Touches(s, s', e) && !On(s, e, Inserted) && On(s', e, Inserted)
    && s'.sigEvent == s.sigEvent
  }

  lemma SlotsJoin(s: State, s': State, e: Event, env: Env)
    requires Slots(s) && Agree(s.poll) && Joins(s, s', e) && Shape(s, s.evs[e]) && FreeFor(s, e)
    requires s.evs[e].events * IO_EVENTS != {}
    requires PollAdd(s.poll, e, s.evs[e].fd, s.evs[e].events, env.tableGrant, env.ctl) == (s'.poll, true)
    ensures Slots(s') && Agree(s'.poll)
  {
    hide PollAdd, Agree;
    var ev, table, table' := s.evs[e], s.poll.table, s'.poll.table;
    assert Read in ev.events || Write in ev.events;
    AddAgrees(s.poll, e, ev.fd, ev.events, env.tableGrant, env.ctl);
    forall fd | 0 <= fd < |table'| && table'[fd].evread != null
      ensures InterestedIn(s', table'[fd].evread, fd, Read) {
      assert table'[fd] == At(table', fd);
      if table'[fd].evread == At(table, fd).evread {
        assert InterestedIn(s, table[fd].evread, fd, Read);
      }
    }
    forall fd | 0 <= fd < |table'| && table'[fd].evwrite != null
      ensures InterestedIn(s', table'[fd].evwrite, fd, Write) {
      assert table'[fd] == At(table', fd);
      if table'[fd].evwrite == At(table, fd).evwrite {
        assert InterestedIn(s, table[fd].evwrite, fd, Write);
      }
    }
  }

  lemma SlotsRefused(s: State, s': State, e: Event, env: Env)
    requires Slots(s) && Agree(s.poll) && e in s.evs && Shape(s, s.evs[e]) && s.evs[e].events * IO_EVENTS != {}
    requires PollAdd(s.poll, e, s.evs[e].fd, s.evs[e].events, env.tableGrant, env.ctl) == (s'.poll, false)
    requires s'.evs == s.evs
    ensures Slots(s') && Agree(s'.poll)
  {
    hide PollAdd, Agree;
    var ev, table, table' := s.evs[e], s.poll.table, s'.poll.table;
    assert Read in ev.events || Write in ev.events;
    AddAgrees(s.poll, e, ev.fd, ev.events, env.tableGrant, env.ctl);
    forall fd | 0 <= fd < |table'| && table'[fd] != NO_SLOT
      ensures 0 <= fd < |table| && table'[fd] == table[fd] {
      assert At(table', fd) == At(table, fd);
    }
    forall fd | 0 <= fd < |table'| && table'[fd].evread != null
      ensures InterestedIn(s', table'[fd].evread, fd, Read) {
      assert InterestedIn(s, table[fd].evread, fd, Read);
    }
    forall fd | 0 <= fd < |table'| && table'[fd].evwrite != null
      ensures InterestedIn(s', table'[fd].evwrite, fd, Write) {
      assert InterestedIn(s, table[fd].evwrite, fd, Write);
    }
  }

  lemma SignalsJoin(s: State, s': State, e: Event)
    requires Signals(s) && Joins(s, s', e) && Shape(s, s.evs[e]) && Signal in s.evs[e].events
    requires s'.sigs == Enlist(s, e).sigs && s'.handlers == s.handlers && Handled(s.handlers, s.evs[e].fd)
    requires s.sigAdded && s'.sigAdded
    ensures Signals(s')
  {
    var sig := s.evs[e].fd;
    assert e in s.sigs[sig] ==> InterestedIn(s, e, sig, Signal);
    assert s'.sigs[sig] == s.sigs[sig] + [e];
    forall i, x | 0 <= i < NSIG && x in s'.sigs[i] ensures InterestedIn(s', x, i, Signal) {
      assert x in s.sigs[i] ==> InterestedIn(s, x, i, Signal);
    }
    assert forall i, x | 0 <= i < NSIG && x in s.sigs[i] :: x in s'.sigs[i];
  }

  /** An accepted I/O event joins the inserted list and takes its slots; a refused one
      changes nothing but perhaps the size of the table. */
  lemma IoEnterInv(s: State, e: Event, env: Env)
    requires Inv(s) && e in s.evs && e != s.sigEvent && !On(s, e, Inserted)
    requires s.evs[e].events * IO_EVENTS != {} && FreeFor(s, e)
    ensures Inv(Enqueue(IoAdd(s, e, env), e).0)
  {
    hide Core, Slots, Signals, SelfPipe, Agree, Touches, PollAdd;
    ShapeOf(s, e);
    var (s1, ok) := IoAdd(s, e, env);
    var s' := Enqueue((s1, ok), e).0;
    CoreSame(s, s1);
    if ok {
      JoinTouches(s, s1, e);
      QInsertCore(s1, e, Inserted);
      SlotsJoin(s, s', e, env);
      SignalsFrame(s, s', e);
      SelfPipeFrame(s, s', e);
    } else {
      SlotsRefused(s, s', e, env);
      SignalsSame(s, s');
      SelfPipeSame(s, s');
    }
  }

  lemma JoinTouches(s: State, s1: State, e: Event)
    requires e in s.evs && s1.evs == s.evs
    ensures Touches(s, QInsert(s1, e, Inserted), e) && On(QInsert(s1, e, Inserted), e, Inserted)
    ensures SameStatic(s, QInsert(s1, e, Inserted), e)
    ensures forall f | f != Inserted :: On(QInsert(s1, e, Inserted), e, f) <==> On(s, e, f)
  {
  }

  lemma SignalsSame(s: State, s': State)
    requires Signals(s) && s'.evs == s.evs && s'.sigs == s.sigs && StillHandled(s, s')
    requires s.sigAdded ==> s'.sigAdded
    ensures Signals(s')
  {
    forall i, x | 0 <= i < NSIG && x in s'.sigs[i] ensures InterestedIn(s', x, i, Signal) {
      assert InterestedIn(s, x, i, Signal);
    }
  }

  lemma SelfPipeSame(s: State, s': State)
    requires SelfPipe(s) && s'.evs == s.evs && s'.sigEvent == s.sigEvent && s'.sigAdded == s.sigAdded
    ensures SelfPipe(s')
  {
  }

  lemma SlotsSame(s: State, s': State)
    requires Slots(s) && s'.evs == s.evs && s'.poll == s.poll
    ensures Slots(s')
  {
    forall fd | 0 <= fd < |s.poll.table| && s.poll.table[fd].evread != null
      ensures InterestedIn(s', s.poll.table[fd].evread, fd, Read) {
      assert InterestedIn(s, s.poll.table[fd].evread, fd, Read);
    }
    forall fd | 0 <= fd < |s.poll.table| && s.poll.table[fd].evwrite != null
      ensures InterestedIn(s', s.poll.table[fd].evwrite, fd, Write) {
      assert InterestedIn(s, s.poll.table[fd].evwrite, fd, Write);
    }
  }

  lemma SamesInv(s: State, s': State)
    requires Inv(s) && s'.evs == s.evs && SameLists(s, s') && s'.poll == s.poll
    requires s'.sigs == s.sigs && StillHandled(s, s')
    requires s'.sigEvent == s.sigEvent && s'.sigAdded == s.sigAdded
    ensures Inv(s')
  {
    hide Core, Slots, Signals, SelfPipe;
    CoreSame(s, s');
    SlotsSame(s, s');
    SignalsSame(s, s');
    SelfPipeSame(s, s');
  }

  /** The self-pipe's descriptor is free until its event has been added. */
  lemma SelfPipeFree(s: State)
    requires Slots(s) && SelfPipe(s) && !s.sigAdded
    ensures FreeFor(s, s.sigEvent) && Wants(s.evs[s.sigEvent])
  {
    var ev := s.evs[s.sigEvent];
    var x := At(s.poll.table, ev.fd).evread;
    assert x != null ==> InterestedIn(s, x, ev.fd, Read);
    assert Read in ev.events * (IO_EVENTS + {Signal});
    assert ev.flags * {Inserted, Active} == {};
  }

  lemma SelfPipeInsertInv(s: State, env: Env)
    requires Inv(s) && !s.sigAdded
    ensures var (s', r) := IoInsert(s, s.sigEvent, env);
            Touches(s, s', s.sigEvent) && (if r == 0 then Inv(s'.(sigAdded := true)) else s'.evs == s.evs && Inv(s'))
  {
    hide Core, Slots, Signals, Agree, PollAdd;
    ShapeOf(s, s.sigEvent);
    assert Read in s.evs[s.sigEvent].events * IO_EVENTS;
    var (s1, ok) := IoAdd(s, s.sigEvent, env);
    if ok {
      SelfPipeJoins(s, env);
    } else {
      CoreSame(s, s1);
      SlotsRefused(s, s1, s.sigEvent, env);
      SignalsSame(s, s1);
      SelfPipeSame(s, s1);
    }
  }

  /** The self-pipe's event is inserted once the kernel has its descriptor. */
  lemma SelfPipeJoins(s: State, env: Env)
    requires Inv(s) && !s.sigAdded && s.sigEvent in s.evs && IoAdd(s, s.sigEvent, env).1
    ensures var s2 := Enqueue(IoAdd(s, s.sigEvent, env), s.sigEvent).0;
            Touches(s, s2, s.sigEvent) && Inv(s2.(sigAdded := true))
  {
    hide Core, Slots, Signals, Agree, PollAdd;
    var e := s.sigEvent;
    SelfPipeFree(s);
    ShapeOf(s, e);
    assert Read in s.evs[e].events * IO_EVENTS;
    var s1 := IoAdd(s, e, env).0;
    var s2 := Enqueue((s1, true), e).0;
    var s' := s2.(sigAdded := true);
    CoreSame(s, s1);
    JoinTouches(s, s1, e);
    QInsertCore(s1, e, Inserted);
    CoreSame(s2, s');
    SlotsJoin(s, s', e, env);
    SignalsFrame(s, s', e);
  }

  /** A signal event joins its list once handler and self-pipe are in place. */
  lemma EnlistInv(s: State, e: Event)
    requires Inv(s) && e in s.evs && e != s.sigEvent && !On(s, e, Inserted)
    requires Signal in s.evs[e].events && Handled(s.handlers, s.evs[e].fd) && s.sigAdded
    ensures Inv(QInsert(Enlist(s, e), e, Inserted))
  {
    hide Core, Slots, Signals, Agree, SelfPipe, Touches;
    ShapeOf(s, e);
    var s1 := Enlist(s, e);
    var s' := QInsert(s1, e, Inserted);
    CoreSame(s, s1);
    JoinTouches(s, s1, e);
    QInsertCore(s1, e, Inserted);
    assert s.evs[e].events * IO_EVENTS == {};
    SlotsOther(s, s', e);
    SignalsJoin(s, s', e);
    SelfPipeFrame(s, s', e);
  }

  /** What the caller of event_add vouches for. */
  ghost predicate AddOk(s: State, e: Event) {
    e in s.evs && e != s.sigEvent && (Wants(s.evs[e]) ==> FreeFor(s, e))
  }

  lemma SigEnterInv(s: State, e: Event, env: Env)
    requires Inv(s) && e in s.evs && !On(s, e, Inserted) && Signal in s.evs[e].events && e != s.sigEvent
    ensures var (s', r) := Enqueue(SigAdd(s, e, env), e);
            && Inv(s') && s'.broken == s.broken && (r != 0 ==> Of(s', e) == Of(s, e))
  {
    hide Core, Slots, Signals, Agree, SelfPipe, PollAdd;
    var sig := s.evs[e].fd;
    if ListAt(s.sigs, sig) != [] {
      HandlerOf(s, e);
      EnlistInv(s, e);
    } else if env.sigact {
      var s1 := s.(handlers := Install(s.handlers, sig));
      SamesInv(s, s1);
      if s1.sigAdded {
        EnlistInv(s1, e);
      } else {
        SelfPipeInsertInv(s1, env);
        var (s2, r) := IoInsert(s1, s1.sigEvent, env);
        if r == 0 {
          EnlistInv(s2.(sigAdded := true), e);
        }
      }
    } else {
      SamesInv(s, s.(handlers := Forget(s.handlers, sig)));
    }
  }

  lemma HandlerOf(s: State, e: Event)
    requires Inv(s) && e in s.evs && Signal in s.evs[e].events && ListAt(s.sigs, s.evs[e].fd) != []
    ensures Handled(s.handlers, s.evs[e].fd) && s.sigAdded
  {
  }

  /** Between `s` and `s'` events have at most gained the Inserted flag, and of them only
      `e` and the self-pipe's. */
  ghost predicate OnlyInserts(s: State, s': State, e: Event) {
    && s'.sigEvent == s.sigEvent && s'.cap == s.cap && s'.heap == s.heap && s'.active == s.active
    && s'.countActive == s.countActive && s'.cell == s.cell && s'.broken == s.broken
    && s'.evs.Keys == s.evs.Keys
    && (forall x | x in s.evs ::
          s'.evs[x] == s.evs[x] || ((x == e || x == s.sigEvent) && s'.evs[x] == WithInserted(s.evs[x])))
  }

  function WithInserted(ev: Ev): Ev {
    ev.(flags := ev.flags + {Inserted})
  }

  lemma EnqueueOnlyInserts(s: State, s1: State, e: Event, ok: bool)
    requires e in s.evs && OnlyInserts(s, s1, e)
    ensures OnlyInserts(s, Enqueue((s1, ok), e).0, e)
  {
    assert WithInserted(WithInserted(s.evs[e])) == WithInserted(s.evs[e]);
  }

  lemma SelAddOnlyInserts(s: State, e: Event, env: Env)
    requires e in s.evs && s.sigEvent in s.evs
    ensures OnlyInserts(s, SelAdd(s, e, env).0, e)
  {
    hide PollAdd, Enqueue, OnlyInserts;
    var s1 := s.(handlers := Install(s.handlers, s.evs[e].fd));
    var (s2, ok) := IoAdd(s1, s1.sigEvent, env);
    var s3 := IoInsert(s1, s1.sigEvent, env).0;
    SameOnlyInserts(s, IoAdd(s, e, env).0, e);
    SameOnlyInserts(s, Enlist(s, e), e);
    SameOnlyInserts(s, s1, e);
    SameOnlyInserts(s, Enlist(s1, e), e);
    SameOnlyInserts(s, s, e);
    SameOnlyInserts(s, s.(handlers := Forget(s.handlers, s.evs[e].fd)), e);
    SameOnlyInserts(s1, s1, s1.sigEvent);
    SameOnlyInserts(s1, s2, s1.sigEvent);
    EnqueueOnlyInserts(s1, s2, s1.sigEvent, ok);
    NestedOnlyInserts(s, s1, s3, Enlist(s3.(sigAdded := true), e), e);
  }

  lemma SameOnlyInserts(s: State, s': State, e: Event)
    requires s' == s.(handlers := s'.handlers, sigs := s'.sigs, poll := s'.poll)
    ensures OnlyInserts(s, s', e)
  {
  }

  lemma NestedOnlyInserts(s: State, s1: State, s3: State, s4: State, e: Event)
    requires s1 == s.(handlers := s1.handlers) && OnlyInserts(s1, s3, s1.sigEvent)
    requires s4 == s3.(sigs := s4.sigs, sigAdded := true)
    ensures OnlyInserts(s, s3, e) && OnlyInserts(s, s4, e)
  {
  }

  lemma InsertOnlyInserts(s: State, e: Event, env: Env)
    requires e in s.evs && s.sigEvent in s.evs
    ensures OnlyInserts(s, Insert(s, e, env).0, e)
  {
    hide SelAdd, Enqueue;
    SelAddOnlyInserts(s, e, env);
    EnqueueOnlyInserts(s, SelAdd(s, e, env).0, e, SelAdd(s, e, env).1);
  }

  /** The backend half of event_add. */
  lemma InsertInv(s: State, e: Event, env: Env)
    requires Inv(s) && AddOk(s, e)
    ensures Inv(Insert(s, e, env).0)
  {
    hide Core, Slots, Signals, Agree, SelfPipe, PollAdd, FreeFor, SigAdd;
    if Wants(s.evs[e]) {
      assert !On(s, e, Inserted) by { assert Inserted !in s.evs[e].flags * {Inserted, Active}; }
      if Signal in s.evs[e].events {
        SigEnterInv(s, e, env);
      } else {
        assert s.evs[e].events * IO_EVENTS != {} by {
          var w :| w in s.evs[e].events * (IO_EVENTS + {Signal});
          assert w in s.evs[e].events * IO_EVENTS;
        }
        IoEnterInv(s, e, env);
      }
    }
  }

  lemma WiredTimer(s: State, s': State, e: Event)
    requires Wired(s) && Touches(s, s', e) && e != s.sigEvent
    requires SameBackend(s.(cap := s'.cap), s') && (On(s', e, Inserted) <==> On(s, e, Inserted))
    ensures Wired(s')
  {
    hide Slots, Signals, SelfPipe, Agree, Touches;
    SlotsFrame(s, s', e);
    SignalsFrame(s, s', e);
    SelfPipeFrame(s, s', e);
  }

  lemma UnscheduleInv(s: State, e: Event)
    requires Core(s) && e in s.evs && (!On(s, e, Timeout) ==> |s.heap| < s.cap)
    ensures var s' := Unschedule(s, e);
            && Core(s') && Touches(s, s', e) && SameBackend(s, s') && SameStatic(s, s', e)
            && !On(s', e, Timeout) && (On(s', e, Inserted) <==> On(s, e, Inserted))
            && |s'.heap| < s'.cap
  {
    hide Core, RemoveIfOn;
    var s1 := RemoveIfOn(s, e, Timeout);
    RemoveIfOnCore(s, e, Timeout);
    RemoveIfOnBackend(s, e, Timeout);
    RoomForOne(s, e);
    if Active in Of(s1, e).flags && TimedOut in Of(s1, e).res {
      CoreSame(s1, Cancel(s1, e));
      QRemoveCore(Cancel(s1, e), e, Active);
    }
  }

  /** The timeout half of event_add; the heap has a slot for it. */
  lemma ScheduleInv(s: State, e: Event, tv: Timeval, now: Timeval)
    requires Inv(s) && e in s.evs && e != s.sigEvent
    requires !On(s, e, Timeout) ==> |s.heap| < s.cap
    ensures Inv(Schedule(s, e, tv, now))
  {
    hide Core, Wired, Unschedule, TimerAdd, Shape;
    UnscheduleInv(s, e);
    var s1 := Unschedule(s, e);
    var s2 := Put(s1, e, Of(s1, e).(timeout := TimerAdd(now, tv)));
    ShapeOf(s1, e);
    TimeoutShape(s1, s1.evs[e], TimerAdd(now, tv));
    CoreFrame(s1, s2, e);
    QInsertCore(s2, e, Timeout);
    SelfPipeIsKnown(s);
    WiredTimer(s, Schedule(s, e, tv, now), e);
  }

  lemma TimeoutShape(s: State, ev: Ev, t: Timeval)
    requires Shape(s, ev)
    ensures Shape(s, ev.(timeout := t))
  {
  }

  lemma SelfPipeIsKnown(s: State)
    requires Wired(s)
    ensures s.sigEvent in s.evs
  {
  }

  lemma RoomForOne(s: State, e: Event)
    requires Core(s) && e in s.evs && (!On(s, e, Timeout) ==> |s.heap| < s.cap)
    ensures |RemoveIfOn(s, e, Timeout).heap| < s.cap
  {
    if On(s, e, Timeout) { assert |s.heap - {e}| == |s.heap| - 1; }
  }

  /** event_add keeps the invariant, whether the backend accepts the event or not; the
      push of event_queue_insert finds its slot reserved. */
  lemma AddInv(s: State, e: Event, tv: Option<Timeval>, env: Env)
    requires Inv(s) && AddOk(s, e)
    ensures Inv(Add(s, e, tv, env).0)
  {
    hide Core, Slots, Signals, Agree, SelfPipe, FreeFor, Insert, Schedule;
    var reserve := tv.Some? && Timeout !in Of(s, e).flags;
    var s0 := if reserve then Reserved(s) else s;
    SamesInv(s, s0);
    assert AddOk(s0, e) by { FreeForSame(s, s0, e); }
    InsertInv(s0, e, env);
    InsertKeeps(s0, e, env);
    var (s1, r) := Insert(s0, e, env);
    if r == 0 && tv.Some? {
      ScheduleInv(s1, e, tv.value, env.now);
    }
  }

  lemma FreeForSame(s: State, s0: State, e: Event)
    requires s0.evs == s.evs && s0.poll == s.poll
    ensures FreeFor(s0, e) <==> FreeFor(s, e)
  {
  }

  lemma InsertKeeps(s: State, e: Event, env: Env)
    requires Inv(s) && e in s.evs
    ensures var s' := Insert(s, e, env).0;
            && e in s'.evs && s'.sigEvent == s.sigEvent && s'.cap == s.cap && s'.heap == s.heap
            && (On(s', e, Timeout) <==> On(s, e, Timeout))
  {
    InsertOnlyInserts(s, e, env) by { assert SelfPipe(s); }
    hide Insert, Inv;
  }

  lemma MakeActiveInv(s: State, e: Event, res: set<What>, ncalls: int)
    requires Inv(s) && e in s.evs && (e == s.sigEvent ==> s.sigAdded)
    ensures Inv(MakeActive(s, e, res, ncalls))
  {
    hide Core, Slots, Signals, Agree, SelfPipe;
    var ev := s.evs[e];
    ShapeOf(s, e);
    var s1 := Put(s, e, if Active in ev.flags then ev.(res := ev.res + res)
                        else ev.(res := res, ncalls := Short(ncalls), pncalls := 0));
    var s' := MakeActive(s, e, res, ncalls);
    CoreFrame(s, s1, e);
    if Active !in ev.flags {
      QInsertCore(s1, e, Active);
    }
    SlotsFrame(s, s', e);
    SignalsFrame(s, s', e);
    SelfPipeTimer(s, e);
    SelfPipeFrame(s, s', e);
  }

  lemma SelfPipeTimer(s: State, e: Event)
    requires SelfPipe(s)
    ensures e == s.sigEvent ==> !On(s, e, Timeout)
  {
  }

  lemma PrioritySetInv(s: State, e: Event, pri: int)
    requires Inv(s) && e in s.evs
    ensures Inv(PrioritySet(s, e, pri).0)
  {
    hide Core, Slots, Signals, Agree, SelfPipe;
    var s' := PrioritySet(s, e, pri).0;
    ShapeOf(s, e);
    CoreFrame(s, s', e);
    SlotsFrame(s, s', e);
    SignalsFrame(s, s', e);
    SelfPipeTimer(s, e);
    SelfPipeSelf(s, e);
    SelfPipeFrame(s, s', e);
  }

  lemma SelfPipeSelf(s: State, e: Event)
    requires SelfPipe(s)
    ensures e == s.sigEvent && On(s, e, Active) ==> s.sigAdded
  {
  }
}
