/** What event_add, event_del and event_active do, said without saying how: which
    structures an event ends up on, where, and that nothing else moves. */
module BaseEffects {
  import opened Seqs
  import opened Timevals
  import opened Events
  import opened Epoll
  import opened MinHeaps
  import opened BaseState
  import opened BaseInv

  /** `s` with `e` taken off the structures in `off`. */
  function Off(s: State, e: Event, off: set<Flag>): State {
    Put(s, e, Of(s, e).(flags := Of(s, e).flags - off))
    .(inserted := if Inserted in off then Without(s.inserted, e) else s.inserted,
      heap := if Timeout in off then s.heap - {e} else s.heap,
      active := if Active in off then SetList(s.active, Of(s, e).pri, Without(ListAt(s.active, Of(s, e).pri), e)) else s.active)
  }

  ghost predicate SameQueues(s: State, s': State) {
    && s'.evs == s.evs && s'.inserted == s.inserted && s'.heap == s.heap && s'.active == s.active
  }

  lemma InsertedAbsent(s: State, e: Event)
    requires InsertedList(s) && e in s.evs && !On(s, e, Inserted)
    ensures Without(s.inserted, e) == s.inserted
  {
    WithoutAbsent(s.inserted, e);
  }

  lemma ActiveAbsent(s: State, e: Event)
    requires ActiveQueues(s) && e in s.evs && !On(s, e, Active)
    ensures SetList(s.active, s.evs[e].pri, Without(ListAt(s.active, s.evs[e].pri), e)) == s.active
  {
    WithoutAbsent(ListAt(s.active, s.evs[e].pri), e);
  }

  lemma TimerAbsent(s: State, e: Event)
    requires TimerHeap(s) && e in s.evs && !On(s, e, Timeout)
    ensures s.heap - {e} == s.heap
  {
  }

  /** Taking an event off a structure it is not on changes nothing. */
  lemma OffAbsent(s: State, e: Event, q: Flag)
    requires Lists(s) && e in s.evs && q in QUEUES && !On(s, e, q)
    ensures SameQueues(s, Off(s, e, {q}))
  {
    hide InsertedList, ActiveQueues, TimerHeap, Without;
    match q {
      case Inserted => InsertedAbsent(s, e);
      case Active => ActiveAbsent(s, e);
      case Timeout => TimerAbsent(s, e);
    }
    assert s.evs[e].flags - {q} == s.evs[e].flags;
  }

  lemma RemoveIfOnEffect(s: State, e: Event, q: Flag)
    requires Lists(s) && e in s.evs && q in QUEUES
    ensures SameQueues(Off(s, e, {q}), RemoveIfOn(s, e, q)) && RemoveIfOn(s, e, q).cell == s.cell
  {
    hide Lists, Without;
    if !On(s, e, q) {
      OffAbsent(s, e, q);
    }
  }

  /** Taking an event off one structure after another takes it off both. */
  lemma OffOff(s: State, s1: State, e: Event, f: set<Flag>, q: Flag)
    requires e in s.evs && SameQueues(Off(s, e, f), s1) && q !in f
    ensures SameQueues(Off(s, e, f + {q}), Off(s1, e, {q}))
  {
    hide Without;
    assert s.evs[e].flags - f - {q} == s.evs[e].flags - (f + {q});
  }

  /** event_del takes the event off every structure and touches no other event; whatever
      else is on those structures keeps its place. */
  lemma DelEffect(s: State, e: Event)
    requires Core(s) && e in s.evs
    ensures SameQueues(Off(s, e, QUEUES), Del(s, e).0)
    ensures Del(s, e).0.cell == if Cancels(s.evs[e]) then Written(s.cell, s.evs[e].pncalls) else s.cell
  {
    hide Core, Lists, Off, RemoveIfOn, SelDel, QRemove;
    var s1 := Cancel(s, e);
    CoreSame(s, s1);
    ListsOf(s1);
    RemoveIfOnEffect(s1, e, Timeout);
    RemoveIfOnCore(s1, e, Timeout);
    var s2 := RemoveIfOn(s1, e, Timeout);
    ListsOf(s2);
    RemoveIfOnEffect(s2, e, Active);
    RemoveIfOnCore(s2, e, Active);
    var s3 := RemoveIfOn(s2, e, Active);
    ListsOf(s3);
    RemoveIfOnEffect(s3, e, Inserted);
    OffOff(s1, s2, e, {Timeout}, Active);
    OffSame(Off(s2, e, {Active}), s3, s1, e, {Timeout} + {Active});
    OffOff(s1, s3, e, {Timeout} + {Active}, Inserted);
    assert {Timeout} + {Active} + {Inserted} == QUEUES;
    DelUnfold(s, e);
    OffCancel(s, e, QUEUES);
  }

  lemma ListsOf(s: State)
    requires Core(s)
    ensures Lists(s)
  {
  }

  lemma OffSame(a: State, b: State, s: State, e: Event, f: set<Flag>)
    requires SameQueues(Off(s, e, f), a) && SameQueues(a, b)
    ensures SameQueues(Off(s, e, f), b)
  {
  }

  lemma OffCancel(s: State, e: Event, f: set<Flag>)
    ensures SameQueues(Off(s, e, f), Off(Cancel(s, e), e, f))
  {
  }

  lemma DelUnfold(s: State, e: Event)
    ensures SameQueues(RemoveIfOn(Dequeue(s, e), e, Inserted), Del(s, e).0)
    ensures Del(s, e).0.cell == RemoveIfOn(Dequeue(s, e), e, Inserted).cell
  {
    hide PollDel, Without;
  }

  // ----- event_add -----

  function Joined(ev: Ev): Ev {
    if Wants(ev) then WithInserted(ev) else ev
  }

  /** What event_add with a timeout leaves of an event: a deadline `tv` from now, and no
      activation that only a timeout caused. */
  function Timed(ev: Ev, tv: Timeval, now: Timeval): Ev {
    var kept := if Active in ev.flags && TimedOut in ev.res then ev.flags - {Active} else ev.flags;
    ev.(flags := kept - {Timeout} + {Timeout}, timeout := TimerAdd(now, tv))
  }

  lemma UnscheduleEffect(s: State, e: Event)
    requires Core(s) && e in s.evs
    ensures var s', ev := Unschedule(s, e), s.evs[e];
            var late := Active in ev.flags && TimedOut in ev.res;
            && s'.evs == s.evs[e := ev.(flags := ev.flags - (if late then {Timeout, Active} else {Timeout}))]
            && s'.inserted == s.inserted && s'.heap == s.heap - {e}
            && s'.active == Off(s, e, if late then {Active} else {}).active
            && s'.cell == s.cell
            && SameBackend(s, s')
  {
    hide Core, Lists, RemoveIfOn, Without;
    ListsOf(s);
    ShapeOf(s, e);
    RemoveIfOnEffect(s, e, Timeout);
    RemoveIfOnBackend(s, e, Timeout);
    assert s.evs[e].flags - {Timeout} - {Active} == s.evs[e].flags - {Timeout, Active};
  }

  lemma ScheduleEffect(s: State, e: Event, tv: Timeval, now: Timeval)
    requires Core(s) && e in s.evs
    ensures var s', ev := Schedule(s, e, tv, now), s.evs[e];
            var late := Active in ev.flags && TimedOut in ev.res;
            && s'.evs == s.evs[e := Timed(ev, tv, now)] && s'.inserted == s.inserted && s'.heap == s.heap + {e}
            && s'.active == Off(s, e, if late then {Active} else {}).active
            && s'.cell == s.cell
            && SameBackend(s, s')
  {
    hide Core, Unschedule, Off;
    UnscheduleEffect(s, e);
    ScheduleFlags(s.evs[e].flags);
  }

  lemma ScheduleFlags(f: set<Flag>)
    ensures f - {Timeout, Active} + {Timeout} == f - {Active} - {Timeout} + {Timeout}
  {
  }

  /** `b` is `a` but for its flags, of which EVLIST_ACTIVE is the same. */
  predicate Flagged(a: Ev, b: Ev) {
    b == a.(flags := b.flags) && (Active in a.flags <==> Active in b.flags)
  }

  /** The backend half of event_add: the flags of events. */
  ghost predicate OnlyFlags(s: State, s': State) {
    && s'.evs.Keys == s.evs.Keys && s'.cell == s.cell && s'.active == s.active && s'.heap == s.heap
    && forall x | x in s.evs :: Flagged(s.evs[x], s'.evs[x])
  }

  /** All of event_add: the deadline of the event, and it may cease to be due. */
  ghost predicate OnlyAdded(s: State, s': State, e: Event, tv: Option<Timeval>, now: Timeval) {
    && e in s.evs && s'.evs.Keys == s.evs.Keys && s'.cell == s.cell
    && (forall x | x in s.evs && x != e :: Flagged(s.evs[x], s'.evs[x]))
    && (s'.active == s.active || s'.active == Off(s, e, {Active}).active)
    && var ev, ev' := s.evs[e], s'.evs[e];
       && ev' == ev.(flags := ev'.flags, timeout := ev'.timeout)
       && ((s'.heap == s.heap && ev'.timeout == ev.timeout)
           || (tv.Some? && s'.heap == s.heap + {e} && ev'.timeout == TimerAdd(now, tv.value)))
  }

  lemma InsertChanges(s: State, e: Event, env: Env)
    requires Inv(s) && AddOk(s, e)
    ensures Core(Insert(s, e, env).0) && OnlyFlags(s, Insert(s, e, env).0)
  {
    hide Insert, FreeFor, Core, Slots, Signals, SelfPipe, Agree;
    SelfPipeIsKnown(s);
    InsertInv(s, e, env);
    InsertOnlyInserts(s, e, env);
  }

  lemma ScheduleChanges(s: State, s1: State, e: Event, tv: Timeval, now: Timeval)
    requires Core(s1) && OnlyFlags(s, s1) && e in s.evs
    ensures OnlyAdded(s, Schedule(s1, e, tv, now), e, Some(tv), now)
  {
    hide Core, Schedule, TimerAdd, Without, SetList, ListAt;
    ScheduleEffect(s1, e, tv, now);
  }

  /** What event_add can change at all, whatever it is refused. */
  lemma AddChanges(s: State, e: Event, tv: Option<Timeval>, env: Env)
    requires Inv(s) && AddOk(s, e)
    ensures OnlyAdded(s, Add(s, e, tv, env).0, e, tv, env.now)
  {
    hide Insert, Schedule, FreeFor, Core, Slots, Signals, SelfPipe, Agree, TimerAdd, Wants, Capacity, Without, Flagged;
    var s0 := if tv.Some? && Timeout !in Of(s, e).flags then Reserved(s) else s;
    SamesInv(s, s0);
    FreeForSame(s, s0, e);
    InsertChanges(s0, e, env);
    FlaggedSelf(s);
    var (s1, r) := Insert(s0, e, env);
    if r == 0 && tv.Some? {
      ScheduleChanges(s, s1, e, tv.value, env.now);
    } else {
      assert Flagged(s.evs[e], s1.evs[e]);
      FlaggedOnly(s.evs[e], s1.evs[e]);
    }
  }

  lemma FlaggedSelf(s: State)
    ensures forall x | x in s.evs :: Flagged(s.evs[x], s.evs[x])
  {
  }

  lemma FlaggedOnly(a: Ev, b: Ev)
    requires Flagged(a, b)
    ensures b == a.(flags := b.flags, timeout := b.timeout) && b.timeout == a.timeout
  {
  }

  /** The memory and the kernel answers event_add needs for an I/O or pure timer event. */
  ghost predicate RoomFor(s: State, ev: Ev, tv: Option<Timeval>, env: Env) {
    tv.Some? && Timeout !in ev.flags && s.cap == |s.heap| ==> env.heapGrant
  }

  ghost predicate Accepted(s: State, ev: Ev, env: Env) {
    Wants(ev) ==> env.ctl && (ev.fd < |s.poll.table| || env.tableGrant)
  }

  lemma InsertEffect(s: State, e: Event, env: Env)
    requires Inv(s) && AddOk(s, e) && Signal !in s.evs[e].events
    ensures var (s', r) := Insert(s, e, env);
            var ev := s.evs[e];
            && r == (if Accepted(s, ev, env) then 0 else -1)
            && s'.evs == (if r == 0 then s.evs[e := Joined(ev)] else s.evs)
            && s'.inserted == (if r == 0 && Wants(ev) then s.inserted + [e] else s.inserted)
            && s'.heap == s.heap && s'.active == s.active && s'.cell == s.cell
            && s'.sigs == s.sigs && s'.handlers == s.handlers && s'.sigAdded == s.sigAdded && s'.sigEvent == s.sigEvent
            && s'.poll == (if Wants(ev) then PollAdd(s.poll, e, ev.fd, ev.events, env.tableGrant, env.ctl).0 else s.poll)
  {
    hide Core, Slots, Signals, SelfPipe, Agree, PollAdd, FreeFor;
    ShapeOf(s, e);
    if Wants(s.evs[e]) {
      WantsIo(s, e);
      SlotsNonEmpty(s);
      assert Agree(s.poll);
      AddAgrees(s.poll, e, s.evs[e].fd, s.evs[e].events, env.tableGrant, env.ctl);
    } else {
      assert s.evs[e := s.evs[e]] == s.evs;
    }
  }

  /** What event_add of an I/O or pure timer event comes to.  It fails exactly for want of
      memory or if the kernel refuses, and then no queue, flag or slot has changed. */
  lemma AddEffect(s: State, e: Event, tv: Option<Timeval>, env: Env)
    requires Inv(s) && AddOk(s, e) && Signal !in s.evs[e].events
    ensures var (s', r) := Add(s, e, tv, env);
            var ev := s.evs[e];
            var late := tv.Some? && Active in ev.flags && TimedOut in ev.res;
            && r == (if RoomFor(s, ev, tv, env) && Accepted(s, ev, env) then 0 else -1)
            && (r == -1 ==> SameQueues(s, s') && s'.cell == s.cell)
            && (r == 0 ==>
                  && s'.evs == s.evs[e := if tv.Some? then Timed(Joined(ev), tv.value, env.now) else Joined(ev)]
                  && s'.inserted == (if Wants(ev) then s.inserted + [e] else s.inserted)
                  && s'.heap == (if tv.Some? then s.heap + {e} else s.heap)
                  && s'.active == Off(s, e, if late then {Active} else {}).active
                  && s'.cell == s.cell)
            && s'.sigs == s.sigs && s'.handlers == s.handlers && s'.sigAdded == s.sigAdded && s'.sigEvent == s.sigEvent
            && s'.poll == (if Wants(ev) && RoomFor(s, ev, tv, env)
                           then PollAdd(s.poll, e, ev.fd, ev.events, env.tableGrant, env.ctl).0 else s.poll)
  {
    hide Core, Slots, Signals, SelfPipe, Agree, PollAdd, FreeFor, Schedule, Without, Insert, Timed, Joined, Capacity, RoomFor, Accepted, Wants, SetList, ListAt;
    var reserve := tv.Some? && Timeout !in Of(s, e).flags;
    var s0 := if reserve then Reserved(s) else s;
    SamesInv(s, s0);
    RoomExactly(s, s.evs[e], tv, env);
    assert Accepted(s0, s.evs[e], env) == Accepted(s, s.evs[e], env) by { AcceptedSame(s, s0, s.evs[e], env); }
    assert AddOk(s0, e) by { FreeForSame(s, s0, e); }
    InsertInv(s0, e, env);
    InsertEffect(s0, e, env);
    var (s1, r) := Insert(s0, e, env);
    if r == 0 && tv.Some? {
      ScheduleEffect(s1, e, tv.value, env.now);
      JoinedLate(s.evs[e]);
    }
  }

  lemma RoomExactly(s: State, ev: Ev, tv: Option<Timeval>, env: Env)
    requires Core(s)
    ensures RoomFor(s, ev, tv, env) <==> !(tv.Some? && Timeout !in ev.flags && s.cap < |s.heap| + 1 && !env.heapGrant)
  {
    CapAtLeast(s);
  }

  lemma AcceptedSame(s: State, s0: State, ev: Ev, env: Env)
    requires s0.poll == s.poll
    ensures Accepted(s0, ev, env) == Accepted(s, ev, env)
  {
  }

  lemma JoinedLate(ev: Ev)
    ensures Active in Joined(ev).flags <==> Active in ev.flags
    ensures Joined(ev).res == ev.res && Joined(ev).pri == ev.pri
    ensures Cancels(Joined(ev)) <==> Cancels(ev)
  {
  }

  lemma CapAtLeast(s: State)
    requires Core(s)
    ensures s.cap >= |s.heap|
  {
  }

  lemma SlotsNonEmpty(s: State)
    requires Slots(s)
    ensures |s.poll.table| > 0
  {
  }

  lemma WantsIo(s: State, e: Event)
    requires e in s.evs && Wants(s.evs[e]) && Signal !in s.evs[e].events
    ensures Read in s.evs[e].events || Write in s.evs[e].events
    ensures Inserted !in s.evs[e].flags && Active !in s.evs[e].flags
  {
    var w :| w in s.evs[e].events * (IO_EVENTS + {Signal});
    assert Inserted !in s.evs[e].flags * {Inserted, Active};
    assert Active !in s.evs[e].flags * {Inserted, Active};
  }

  // ----- event_add of a signal event -----

  /** The first event of its signal has evsignal_add install the handler, and the first of
      all add the event on the self-pipe. */
  ghost predicate NewSignal(s: State, ev: Ev) {
    Wants(ev) && ListAt(s.sigs, ev.fd) == []
  }

  ghost predicate NewPipe(s: State, ev: Ev) {
    NewSignal(s, ev) && !s.sigAdded
  }

  ghost predicate PipeAccepted(s: State, env: Env) {
    env.ctl && (Of(s, s.sigEvent).fd < |s.poll.table| || env.tableGrant)
  }

  ghost predicate SignalAccepted(s: State, ev: Ev, env: Env) {
    (NewSignal(s, ev) ==> env.sigact) && (NewPipe(s, ev) ==> PipeAccepted(s, env))
  }

  /** What evsignal_add does to the backend; a refused add of the self-pipe's event leaves
      the handler installed. */
  ghost predicate SignalBackend(s: State, ev: Ev, e: Event, env: Env, s': State) {
    var done := SignalAccepted(s, ev, env);
    && s'.sigEvent == s.sigEvent
    && s'.sigs == (if done && Wants(ev) then SetList(s.sigs, ev.fd, ListAt(s.sigs, ev.fd) + [e]) else s.sigs)
    && s'.sigAdded == (s.sigAdded || (done && NewSignal(s, ev)))
    && s'.handlers.actions == (if NewSignal(s, ev) && env.sigact then s.handlers.actions[ev.fd := Ours] else s.handlers.actions)
    && s'.handlers.saved == (if !NewSignal(s, ev) then s.handlers.saved
                             else if env.sigact then s.handlers.saved[ev.fd := ActionOf(s.handlers, ev.fd)]
                             else s.handlers.saved - {ev.fd})
    && s'.poll == (if NewPipe(s, ev) && env.sigact
                   then PollAdd(s.poll, s.sigEvent, Of(s, s.sigEvent).fd, {Read, Persist}, env.tableGrant, env.ctl).0 else s.poll)
  }

  ghost function PipeList(s: State, ev: Ev): seq<Event> {
    if NewPipe(s, ev) then [s.sigEvent] else []
  }

  ghost function PipeEvs(s: State, ev: Ev): map<Event, Ev>
    requires s.sigEvent in s.evs
  {
    if NewPipe(s, ev) then s.evs[s.sigEvent := WithInserted(s.evs[s.sigEvent])] else s.evs
  }

  lemma PipeInsertEffect(s: State, env: Env)
    requires Inv(s) && !s.sigAdded
    ensures var (s', r) := IoInsert(s, s.sigEvent, env);
            && s.sigEvent in s.evs && r == (if PipeAccepted(s, env) then 0 else -1)
            && s'.evs == (if r == 0 then s.evs[s.sigEvent := WithInserted(s.evs[s.sigEvent])] else s.evs)
            && s'.inserted == (if r == 0 then s.inserted + [s.sigEvent] else s.inserted)
            && s'.heap == s.heap && s'.active == s.active && s'.cell == s.cell && s'.sigs == s.sigs
            && s'.handlers == s.handlers && s'.sigAdded == s.sigAdded && s'.sigEvent == s.sigEvent && s'.cap == s.cap
            && s'.poll == PollAdd(s.poll, s.sigEvent, s.evs[s.sigEvent].fd, {Read, Persist}, env.tableGrant, env.ctl).0
  {
    hide Core, Slots, Signals, Agree, PollAdd;
    SelfPipeFree(s);
    ShapeOf(s, s.sigEvent);
    assert Read in s.evs[s.sigEvent].events * IO_EVENTS;
    SlotsNonEmpty(s);
    assert Agree(s.poll);
    AddAgrees(s.poll, s.sigEvent, s.evs[s.sigEvent].fd, {Read, Persist}, env.tableGrant, env.ctl);
  }

  lemma SignalInsertEffect(s: State, e: Event, env: Env)
    requires Inv(s) && AddOk(s, e) && Signal in s.evs[e].events
    ensures var (s', r) := Insert(s, e, env);
            var ev := s.evs[e];
            && s.sigEvent in s.evs
            && r == (if SignalAccepted(s, ev, env) then 0 else -1)
            && s'.evs == (if r == 0 then PipeEvs(s, ev)[e := Joined(ev)] else s.evs)
            && s'.inserted == (if r == 0 then s.inserted + PipeList(s, ev) + (if Wants(ev) then [e] else []) else s.inserted)
            && s'.heap == s.heap && s'.active == s.active && s'.cell == s.cell && s'.cap == s.cap
            && SignalBackend(s, ev, e, env, s')
  {
    hide Core, Slots, Signals, SelfPipe, Agree, PollAdd, IoInsert, PipeAccepted, Wants, ActionOf;
    var ev := s.evs[e];
    SelfPipeIsKnown(s);
    var s1 := s.(handlers := Install(s.handlers, ev.fd));
    SamesInv(s, s1) by { InstallHandles(s, ev.fd); }
    if !s.sigAdded {
      PipeInsertEffect(s1, env);
      PipeSame(s, s1, env);
    }
    if Wants(ev) {
      Inserting(ev);
    } else {
      assert s.evs[e := ev] == s.evs;
      assert s.inserted + [] + [] == s.inserted;
    }
  }

  lemma Inserting(ev: Ev)
    requires Wants(ev)
    ensures Joined(ev) == ev.(flags := ev.flags + {Inserted})
  {
  }

  lemma PipeSame(s: State, s1: State, env: Env)
    requires s1.evs == s.evs && s1.poll == s.poll && s1.sigEvent == s.sigEvent
    ensures PipeAccepted(s1, env) == PipeAccepted(s, env)
  {
  }

  lemma InstallHandles(s: State, sig: int)
    ensures StillHandled(s, s.(handlers := Install(s.handlers, sig)))
  {
  }

  /** What event_add of a signal event comes to.  It fails exactly for want of a slot for the
      deadline, or if the event is the first of its signal and sigaction fails, or if it is
      the first of all and the event on the self-pipe is refused; then no queue, flag or
      deadline has changed.  If it succeeds the inserted list has gained the self-pipe's
      event, if that was missing, and then this one. */
  lemma SignalAddEffect(s: State, e: Event, tv: Option<Timeval>, env: Env)
    requires Inv(s) && AddOk(s, e) && Signal in s.evs[e].events
    ensures var (s', r) := Add(s, e, tv, env);
            var ev := s.evs[e];
            var late := tv.Some? && Active in ev.flags && TimedOut in ev.res;
            && s.sigEvent in s.evs
            && r == (if RoomFor(s, ev, tv, env) && SignalAccepted(s, ev, env) then 0 else -1)
            && (r == -1 ==> SameQueues(s, s'))
            && (r == 0 ==>
                  && s'.evs == PipeEvs(s, ev)[e := if tv.Some? then Timed(Joined(ev), tv.value, env.now) else Joined(ev)]
                  && s'.inserted == s.inserted + PipeList(s, ev) + (if Wants(ev) then [e] else [])
                  && s'.heap == (if tv.Some? then s.heap + {e} else s.heap)
                  && s'.active == Off(s, e, if late then {Active} else {}).active)
            && s'.cell == s.cell
            && (if RoomFor(s, ev, tv, env) then SignalBackend(s, ev, e, env, s') else s' == s)
  {
    hide Core, Slots, Signals, SelfPipe, Agree, PollAdd, FreeFor, Schedule, Without, Insert, Timed, Joined, Capacity,
         RoomFor, SignalAccepted, Wants, SetList, ListAt, Install, Forget, NewPipe, NewSignal;
    var reserve := tv.Some? && Timeout !in Of(s, e).flags;
    var s0 := if reserve then Reserved(s) else s;
    SamesInv(s, s0);
    SelfPipeIsKnown(s);
    RoomExactly(s, s.evs[e], tv, env);
    assert AddOk(s0, e) by { FreeForSame(s, s0, e); }
    InsertInv(s0, e, env);
    SignalInsertEffect(s0, e, env);
    SignalSame(s, s0, s.evs[e], e, env, Insert(s0, e, env).0);
    var (s1, r) := Insert(s0, e, env);
    if r == 0 && tv.Some? {
      ScheduleEffect(s1, e, tv.value, env.now);
      JoinedLate(s.evs[e]);
      SignalLater(s, s.evs[e], e, env, s1, Schedule(s1, e, tv.value, env.now));
    }
  }

  lemma SignalSame(s: State, s0: State, ev: Ev, e: Event, env: Env, s': State)
    requires s0 == s.(cap := s0.cap) && s.sigEvent in s.evs
    ensures SignalAccepted(s0, ev, env) == SignalAccepted(s, ev, env)
    ensures PipeEvs(s0, ev) == PipeEvs(s, ev) && PipeList(s0, ev) == PipeList(s, ev)
    ensures SignalBackend(s0, ev, e, env, s') == SignalBackend(s, ev, e, env, s')
  {
    hide PollAdd;
  }

  lemma SignalLater(s: State, ev: Ev, e: Event, env: Env, s1: State, s2: State)
    requires SignalBackend(s, ev, e, env, s1) && SameBackend(s1, s2)
    ensures SignalBackend(s, ev, e, env, s2)
  {
    hide PollAdd;
  }

  /** event_del takes back event_add: an event that was on no structure is on none again,
      and every other event keeps its place.  Only the deadline stays written. */
  lemma DelUndoesAdd(s: State, e: Event, tv: Option<Timeval>, env: Env)
    requires Inv(s) && AddOk(s, e) && Signal !in s.evs[e].events && s.evs[e].flags * QUEUES == {}
    requires Add(s, e, tv, env).1 == 0
    ensures var s' := Del(Add(s, e, tv, env).0, e).0;
            && s'.evs == s.evs[e := s.evs[e].(timeout := if tv.Some? then TimerAdd(env.now, tv.value) else s.evs[e].timeout)]
            && s'.inserted == s.inserted && s'.heap == s.heap && s'.active == s.active
            && s'.count == s.count && s'.countActive == s.countActive
  {
    hide Core, Slots, Signals, SelfPipe, Agree, Add, Del, PollAdd, Without, FreeFor, Off, Wants,
         Accepted, RoomFor, Undoable, Timed, Joined;
    AddEffect(s, e, tv, env);
    AddInv(s, e, tv, env);
    var s1 := Add(s, e, tv, env).0;
    DelEffect(s1, e);
    DelCore(s1, e);
    OffQueues(s, e);
    UndoFlags(s.evs[e], tv, env.now);
    AbsentEverywhere(s, e);
    UndoQueues(s, s1, e);
    CountsSame(s, Del(s1, e).0, e);
  }

  /** It also restores the readers and writers of the table and the kernel's registrations. */
  lemma DelUndoesAddInBackend(s: State, e: Event, tv: Option<Timeval>, env: Env)
    requires Inv(s) && AddOk(s, e) && Signal !in s.evs[e].events && s.evs[e].flags * QUEUES == {}
    requires Add(s, e, tv, env).1 == 0
    ensures var s' := Del(Add(s, e, tv, env).0, e).0;
            && s'.poll.kernel == s.poll.kernel && (forall fd :: At(s'.poll.table, fd) == At(s.poll.table, fd))
            && s'.sigs == s.sigs && s'.handlers == s.handlers && s'.sigAdded == s.sigAdded
  {
    hide Core, Slots, Signals, SelfPipe, Agree, Add, Del, PollAdd, PollDel, FreeFor, Off, Wants;
    AddEffect(s, e, tv, env);
    DelBackend(Add(s, e, tv, env).0, e);
    OffQueues(s, e);
    if Wants(s.evs[e]) {
      UndoPoll(s, e, tv, env);
    }
  }

  lemma UndoQueues(s: State, s1: State, e: Event)
    requires Core(s) && e in s.evs && s.evs[e].flags * QUEUES == {}
    requires s1.evs == s.evs[e := Of(s1, e)] && s1.active == s.active
    requires s1.inserted == s.inserted || s1.inserted == s.inserted + [e]
    requires s1.heap == s.heap || s1.heap == s.heap + {e}
    requires Undoable(s.evs[e], Of(s1, e))
    ensures var s' := Off(s1, e, QUEUES);
            && s'.evs == s.evs[e := s.evs[e].(timeout := Of(s1, e).timeout)]
            && s'.inserted == s.inserted && s'.heap == s.heap && s'.active == s.active
  {
    hide Core, Without;
    AbsentEverywhere(s, e);
  }

  lemma UndoPoll(s: State, e: Event, tv: Option<Timeval>, env: Env)
    requires Inv(s) && AddOk(s, e) && Signal !in s.evs[e].events && Wants(s.evs[e]) && Accepted(s, s.evs[e], env)
    ensures var ev := s.evs[e];
            var p := PollDel(PollAdd(s.poll, e, ev.fd, ev.events, env.tableGrant, env.ctl).0, ev.fd, ev.events, true).0;
            p.kernel == s.poll.kernel && forall fd :: At(p.table, fd) == At(s.poll.table, fd)
  {
    hide Core, Slots, Signals, SelfPipe, PollAdd, PollDel, Agree;
    var ev := s.evs[e];
    WantsIo(s, e);
    ShapeOf(s, e);
    SlotsNonEmpty(s);
    assert Agree(s.poll);
    Epoll.DelUndoesAdd(s.poll, e, ev.fd, ev.events, env.tableGrant);
    forall fd ensures At(Grown(s.poll.table, ev.fd), fd) == At(s.poll.table, fd) {
      GrownAt(s.poll.table, ev.fd, fd);
    }
  }

  lemma OffQueues(s: State, e: Event)
    requires e in s.evs && s.evs[e].flags * QUEUES == {}
    ensures Timeout !in s.evs[e].flags && Active !in s.evs[e].flags && Inserted !in s.evs[e].flags
  {
    assert Timeout !in s.evs[e].flags * QUEUES;
    assert Active !in s.evs[e].flags * QUEUES;
    assert Inserted !in s.evs[e].flags * QUEUES;
  }

  ghost predicate Undoable(ev: Ev, ev1: Ev) {
    ev1 == ev.(flags := ev1.flags, timeout := ev1.timeout) && ev1.flags - QUEUES == ev.flags
  }

  lemma UndoFlags(ev: Ev, tv: Option<Timeval>, now: Timeval)
    requires Timeout !in ev.flags && Active !in ev.flags && Inserted !in ev.flags
    ensures Undoable(ev, Joined(ev)) && Joined(ev).timeout == ev.timeout
    ensures tv.Some? ==> var timed := Timed(Joined(ev), tv.value, now);
                         Undoable(ev, timed) && timed.timeout == TimerAdd(now, tv.value)
  {
  }

  lemma AbsentEverywhere(s: State, e: Event)
    requires Core(s) && e in s.evs && s.evs[e].flags * QUEUES == {}
    ensures Without(s.inserted, e) == s.inserted && Without(s.inserted + [e], e) == s.inserted
    ensures s.heap - {e} == s.heap && (s.heap + {e}) - {e} == s.heap
    ensures SetList(s.active, s.evs[e].pri, Without(ListAt(s.active, s.evs[e].pri), e)) == s.active
    ensures Off(s, e, {}).active == s.active
  {
    hide InsertedList, ActiveQueues, Counts;
    OffQueues(s, e);
    InsertedAbsent(s, e);
    ActiveAbsent(s, e);
    TimerAbsent(s, e);
    WithoutAppended(s.inserted, e) by { NotInserted(s, e); }
  }

  lemma NotInserted(s: State, e: Event)
    requires InsertedList(s) && e in s.evs && !On(s, e, Inserted)
    ensures e !in s.inserted
  {
  }

  lemma CountsSame(s: State, s': State, e: Event)
    requires Core(s) && Core(s') && e in s.evs && s'.evs.Keys == s.evs.Keys && s'.active == s.active
    requires forall x | x in s.evs :: s'.evs[x].flags == s.evs[x].flags
    ensures s'.count == s.count && s'.countActive == s.countActive
  {
    assert Counted(s', Inserted) == Counted(s, Inserted);
    assert Counted(s', Active) == Counted(s, Active);
    assert Counted(s', Timeout) == Counted(s, Timeout);
  }

  /** event_del after event_add of a signal event takes the event off again and restores what
      signals do.  What stays is the event on the self-pipe, with its registration, if it was
      added for the purpose, and the deadline. */
  lemma DelUndoesSignalAdd(s: State, e: Event, tv: Option<Timeval>, env: Env)
    requires Inv(s) && AddOk(s, e) && Signal in s.evs[e].events && s.evs[e].flags * QUEUES == {}
    requires Add(s, e, tv, env).1 == 0
    ensures var (s1, s', ev) := (Add(s, e, tv, env).0, Del(Add(s, e, tv, env).0, e).0, s.evs[e]);
            && s.sigEvent in s.evs
            && s'.evs == PipeEvs(s, ev)[e := ev.(timeout := if tv.Some? then TimerAdd(env.now, tv.value) else ev.timeout)]
            && s'.inserted == s.inserted + PipeList(s, ev) && s'.heap == s.heap && s'.active == s.active
            && s'.sigs == s.sigs && s'.poll == s1.poll && s'.sigAdded == (s.sigAdded || NewSignal(s, ev))
            && (forall i :: ActionOf(s'.handlers, i) == ActionOf(s.handlers, i))
  {
    hide Core, Slots, Signals, SelfPipe, Agree, Add, Del, PollAdd, Without, FreeFor, Off, SignalAccepted, RoomFor, Timed, Joined,
         PipeEvs, PipeList, NewSignal, Undoable, Install, Restore, Forget, ActionOf, NewPipe;
    SignalAddEffect(s, e, tv, env);
    AddInv(s, e, tv, env);
    var s1 := Add(s, e, tv, env).0;
    DelEffect(s1, e);
    DelBackend(s1, e);
    OffQueues(s, e);
    IdleWants(s.evs[e]);
    UndoFlags(s.evs[e], tv, env.now);
    LastingFlag(s.evs[e], tv, env.now);
    PipeApart(s, s.evs[e], e);
    AbsentEverywhere(s, e);
    UndoSignalQueues(s, s1, e);
    UndoSignalLists(s, s1, e, env);
  }

  lemma IdleWants(ev: Ev)
    requires ev.flags * QUEUES == {} && Signal in ev.events
    ensures Wants(ev)
  {
    assert Signal in ev.events * (IO_EVENTS + {Signal});
    assert ev.flags * {Inserted, Active} <= ev.flags * QUEUES;
  }

  lemma LastingFlag(ev: Ev, tv: Option<Timeval>, now: Timeval)
    requires Wants(ev)
    ensures Inserted in (if tv.Some? then Timed(Joined(ev), tv.value, now) else Joined(ev)).flags
    ensures (if tv.Some? then Timed(Joined(ev), tv.value, now) else Joined(ev)).events == ev.events
    ensures (if tv.Some? then Timed(Joined(ev), tv.value, now) else Joined(ev)).fd == ev.fd
    ensures !(tv.Some? && Active in ev.flags && TimedOut in ev.res)
  {
    assert Active !in ev.flags * {Inserted, Active};
  }

  lemma PipeApart(s: State, ev: Ev, e: Event)
    requires Core(s) && AddOk(s, e) && s.sigEvent in s.evs && e != s.sigEvent && Inserted !in s.evs[e].flags
    ensures PipeEvs(s, ev).Keys == s.evs.Keys && PipeEvs(s, ev)[e] == s.evs[e]
    ensures e !in s.inserted + PipeList(s, ev)
  {
    NotInserted(s, e) by { ListsOf(s); }
  }

  lemma UndoSignalQueues(s: State, s1: State, e: Event)
    requires Core(s) && e in s.evs && s.evs[e].flags * QUEUES == {} && s.sigEvent in s.evs && e != s.sigEvent
    requires e in s1.evs && s1.evs == PipeEvs(s, s.evs[e])[e := s1.evs[e]] && s1.active == s.active
    requires s1.inserted == s.inserted + PipeList(s, s.evs[e]) + [e] && e !in s.inserted + PipeList(s, s.evs[e])
    requires s1.heap == s.heap || s1.heap == s.heap + {e}
    requires Undoable(s.evs[e], s1.evs[e])
    ensures var s' := Off(s1, e, QUEUES);
            && s'.evs == PipeEvs(s, s.evs[e])[e := s.evs[e].(timeout := s1.evs[e].timeout)]
            && s'.inserted == s.inserted + PipeList(s, s.evs[e]) && s'.heap == s.heap && s'.active == s.active
  {
    hide Core, Without, PipeEvs, PipeList;
    AbsentEverywhere(s, e);
    WithoutAppended(s.inserted + PipeList(s, s.evs[e]), e);
  }

  lemma UndoSignalLists(s: State, s1: State, e: Event, env: Env)
    requires Inv(s) && e in s.evs && Signal in s.evs[e].events && Inserted !in s.evs[e].flags && Wants(s.evs[e])
    requires SignalAccepted(s, s.evs[e], env) && SignalBackend(s, s.evs[e], e, env, s1)
    requires Of(s1, e).fd == s.evs[e].fd
    ensures SigDel(s1, e).sigs == s.sigs
    ensures forall i :: ActionOf(SigDel(s1, e).handlers, i) == ActionOf(s.handlers, i)
  {
    hide Core, Slots, Agree, SelfPipe, Without, PollAdd;
    var sig := s.evs[e].fd;
    ShapeOf(s, e);
    assert e in s.sigs[sig] ==> InterestedIn(s, e, sig, Signal);
    WithoutAppended(s.sigs[sig], e);
    assert s1.sigs[sig] == s.sigs[sig] + [e];
    assert s.sigs[sig := s.sigs[sig] + [e]][sig := s.sigs[sig]] == s.sigs;
  }

  /** The kernel watches a descriptor for input exactly while an event is inserted that reads
      it, for output exactly while one is that writes it, and no other descriptor. */
  lemma Registered(s: State, fd: int)
    requires Inv(s)
    ensures fd in s.poll.kernel <==> exists e, what | e in s.evs && what in IO_EVENTS :: InterestedIn(s, e, fd, what)
    ensures fd in s.poll.kernel ==>
              && (In in s.poll.kernel[fd] <==> exists e | e in s.evs :: InterestedIn(s, e, fd, Read))
              && (Out in s.poll.kernel[fd] <==> exists e | e in s.evs :: InterestedIn(s, e, fd, Write))
  {
    hide Core, Signals, SelfPipe;
    var slot := At(s.poll.table, fd);
    assert slot.evread != null ==> InterestedIn(s, slot.evread, fd, Read);
    assert slot.evwrite != null ==> InterestedIn(s, slot.evwrite, fd, Write);
    forall e | e in s.evs && InterestedIn(s, e, fd, Read) ensures slot.evread == e {}
    forall e | e in s.evs && InterestedIn(s, e, fd, Write) ensures slot.evwrite == e {}
    assert fd in s.poll.kernel <==> slot != NO_SLOT;
  }

  // ----- event_priority_set and event_active -----

  /** event_priority_set succeeds exactly for events that are not active and priorities that
      have a queue; it assigns the priority then, and changes nothing else. */
  lemma PrioritySetEffect(s: State, e: Event, pri: int)
    requires e in s.evs
    ensures var (s', r) := PrioritySet(s, e, pri);
            && (r == 0 || r == -1) && (r == 0 <==> Active !in s.evs[e].flags && 0 <= pri < |s.active|)
            && s' == s.(evs := s'.evs) && s'.evs.Keys == s.evs.Keys
            && (forall x | x in s.evs && x != e :: s'.evs[x] == s.evs[x])
            && s'.evs[e] == s.evs[e].(pri := if r == 0 then pri else s.evs[e].pri)
  {
  }

  /** An idle event joins the end of the queue of its priority, with the count it is given. */
  lemma ActiveEffect(s: State, e: Event, res: set<What>, n: int)
    requires Core(s) && e in s.evs && Active !in s.evs[e].flags
    ensures var s', pri := MakeActive(s, e, res, n), s.evs[e].pri;
            && 0 <= pri < |s.active| && s'.active == s.active[pri := s.active[pri] + [e]]
            && s'.evs == s.evs[e := s.evs[e].(flags := s.evs[e].flags + {Active}, res := res, ncalls := n % 0x1_0000, pncalls := 0)]
            && s'.inserted == s.inserted && s'.heap == s.heap && s'.cell == s.cell
  {
    ShapeOf(s, e);
    ShortIs(n);
  }

  lemma ShortIs(n: int)
    ensures Short(n) == n % 0x1_0000
  {
  }

  /** An active event keeps its place and its count, and gets one more reason to run. */
  lemma ActiveAgain(s: State, e: Event, res: set<What>, n: int)
    requires e in s.evs && Active in s.evs[e].flags
    ensures MakeActive(s, e, res, n) == s.(evs := s.evs[e := s.evs[e].(res := s.evs[e].res + res)])
  {
  }

  /** So a priority that was accepted decides which queue the event joins next. */
  lemma PriorityDecides(s: State, e: Event, pri: int, res: set<What>, n: int)
    requires Inv(s) && e in s.evs && Active !in s.evs[e].flags && 0 <= pri < |s.active|
    ensures var s' := MakeActive(PrioritySet(s, e, pri).0, e, res, n);
            && PrioritySet(s, e, pri).1 == 0
            && |s'.active| == |s.active| && s'.active[pri] == s.active[pri] + [e]
            && forall i | 0 <= i < |s.active| && i != pri :: s'.active[i] == s.active[i]
  {
    hide Inv, PrioritySet, MakeActive;
    PrioritySetInv(s, e, pri);
    PrioritySetEffect(s, e, pri);
    CoreOfInv(PrioritySet(s, e, pri).0);
    ActiveEffect(PrioritySet(s, e, pri).0, e, res, n);
  }

  lemma CoreOfInv(s: State)
    requires Inv(s)
    ensures Core(s)
  {
  }

  /** After a successful event_add a read or write event is on some structure.  Its
      descriptor is watched, or its callback about to run, exactly unless event_add had to
      take back an activation by a timeout: such an event gets a new deadline only. */
  lemma AddWatched(s: State, e: Event, tv: Option<Timeval>, env: Env)
    requires Inv(s) && AddOk(s, e) && Signal !in s.evs[e].events && s.evs[e].events * IO_EVENTS != {}
    requires Add(s, e, tv, env).1 == 0
    ensures var flags, flags' := s.evs[e].flags, Of(Add(s, e, tv, env).0, e).flags;
            && flags' * QUEUES != {}
            && (Inserted in flags' || Active in flags' <==>
                !(tv.Some? && Active in flags && TimedOut in s.evs[e].res && Inserted !in flags))
  {
    hide Core, Slots, Signals, SelfPipe, Agree, FreeFor, PollAdd, Off, RoomFor, Accepted;
    AddEffect(s, e, tv, env);
    ScheduledFlags(s.evs[e], tv, env.now);
  }

  lemma ScheduledFlags(ev: Ev, tv: Option<Timeval>, now: Timeval)
    requires ev.events * IO_EVENTS != {}
    ensures var flags := (if tv.Some? then Timed(Joined(ev), tv.value, now) else Joined(ev)).flags;
            && flags * QUEUES != {}
            && (Inserted in flags || Active in flags <==>
                !(tv.Some? && Active in ev.flags && TimedOut in ev.res && Inserted !in ev.flags))
  {
    var flags := (if tv.Some? then Timed(Joined(ev), tv.value, now) else Joined(ev)).flags;
    assert ev.events * (IO_EVENTS + {Signal}) != {} by {
      var w :| w in ev.events * IO_EVENTS;
      assert w in ev.events * (IO_EVENTS + {Signal});
    }
    assert ev.flags * {Inserted, Active} == {} <==> Inserted !in ev.flags && Active !in ev.flags by {
      assert Inserted in ev.flags ==> Inserted in ev.flags * {Inserted, Active};
      assert Active in ev.flags ==> Active in ev.flags * {Inserted, Active};
    }
    assert Inserted in flags ==> Inserted in flags * QUEUES;
    assert Active in flags ==> Active in flags * QUEUES;
    assert Timeout in flags ==> Timeout in flags * QUEUES;
  }
}
