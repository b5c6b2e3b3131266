/** Arbitrary runs of the API on an event base, from its creation. */
module BaseRuns {
  import opened Seqs
  import opened Timevals
  import opened Events
  import opened Epoll
  import opened BaseState
  import opened BaseInv

  /** The calls a program, or one of its callbacks, can make. */
  datatype Op =
    | Attach(e: Event, fd: int, events: set<What>)            // event_set and event_base_set
    | EventAdd(e: Event, tv: Option<Timeval>, env: Env)
    | EventDel(e: Event)
    | EventActive(e: Event, res: set<What>, ncalls: int)
    | EventPriority(e: Event, pri: int)
    | LoopBreak

  function AttachTo(s: State, e: Event, fd: int, events: set<What>): State {
    Put(s, e, Ev(fd, events, |s.active| / 2, {Init}, Of(s, e).timeout, {}, 0, 0))
  }

  /** An event of the program that is on no structure. */
  predicate Idle(s: State, e: Event) {
    e in s.evs && e != s.sigEvent && s.evs[e].flags * QUEUES == {}
  }

  /** The caller's contract.  Events are set up, for the first time or again, while they are
      on no structure, with a descriptor that fits their kind, and nobody but the base
      touches the event on the self-pipe. */
  ghost predicate Permitted(s: State, op: Op) {
    match op
    case Attach(e, fd, events) =>
      && (e !in s.evs || Idle(s, e))
      && (events * IO_EVENTS != {} ==> fd >= 0 && Signal !in events && fd != Of(s, s.sigEvent).fd)
      && (Signal in events ==> 0 <= fd < NSIG)
    case EventAdd(e, tv, env) => AddOk(s, e)
    case EventDel(e) => e in s.evs && e != s.sigEvent
    case EventActive(e, res, ncalls) => e in s.evs && (e == s.sigEvent ==> s.sigAdded)
    case EventPriority(e, pri) => e in s.evs
    case LoopBreak => true
  }

  ghost function Step(s: State, op: Op): State {
    match op
    case Attach(e, fd, events) => AttachTo(s, e, fd, events)
    case EventAdd(e, tv, env) => Add(s, e, tv, env).0
    case EventDel(e) => Del(s, e).0
    case EventActive(e, res, ncalls) => MakeActive(s, e, res, ncalls)
    case EventPriority(e, pri) => PrioritySet(s, e, pri).0
    case LoopBreak => s.(broken := true)
  }

  ghost function Run(s: State, ops: seq<Op>): State
    decreases |ops|
  {
    if ops == [] then s else Run(Step(s, ops[0]), ops[1..])
  }

  ghost predicate Obeys(s: State, ops: seq<Op>)
    decreases |ops|
  {
    ops == [] || (Permitted(s, ops[0]) && Obeys(Step(s, ops[0]), ops[1..]))
  }

  /** event_base_new with `npriorities` active queues, where `actions` is what signals do so far.  The self-pipe's event gets its
      priority from whatever base is current. */
  function Fresh(sigEvent: Event, pipe: int, pri: nat, npriorities: nat, nfds: nat, actions: map<int, Action>): State {
    State(map[sigEvent := Ev(pipe, {Read, Persist}, pri, {Init, Internal}, Timeval(0, 0), {}, 0, 0)],
          [], seq(npriorities, i => []), {}, 0, 0, 0, Counter(0, 0, false, false), false,
          Poll(seq(nfds, i => NO_SLOT), map[]),
          seq(NSIG, i => []), sigEvent, false, Handlers(map[], actions))
  }

  /** A new base has as many queues as were asked for, nothing on any structure, nothing
      registered, and no signal taken over. */
  lemma FreshContents(sigEvent: Event, pipe: nat, pri: nat, npriorities: nat, nfds: nat, actions: map<int, Action>)
    ensures var s := Fresh(sigEvent, pipe, pri, npriorities, nfds, actions);
            && |s.active| == npriorities && (forall i | 0 <= i < npriorities :: s.active[i] == [])
            && s.inserted == [] && s.heap == {} && s.cap == s.count == s.countActive == 0 && !s.broken && !s.cell.running
            && |s.poll.table| == nfds && s.poll.kernel == map[] && (forall fd :: At(s.poll.table, fd) == FdSlot(null, null))
            && |s.sigs| == 65 && (forall i | 0 <= i < 65 :: s.sigs[i] == []) && !s.sigAdded
            && s.handlers.saved == map[] && s.handlers.actions == actions
            && (forall i | i !in actions :: ActionOf(s.handlers, i) == Theirs(0))
            && s.evs.Keys == {sigEvent} && s.sigEvent == sigEvent
            && s.evs[sigEvent] == Ev(pipe, {Read, Persist}, pri, {Init, Internal}, Timeval(0, 0), {}, 0, 0)
  {
  }

  lemma {:induction false} EmptyTotal(lists: seq<seq<Event>>)
    requires forall i | 0 <= i < |lists| :: lists[i] == []
    ensures TotalLen(lists) == 0
  {
    if lists != [] {
      EmptyTotal(lists[1..]);
    }
  }

  lemma FreshCore(sigEvent: Event, pipe: nat, pri: nat, npriorities: nat, nfds: nat, actions: map<int, Action>)
    requires pri < npriorities
    ensures Core(Fresh(sigEvent, pipe, pri, npriorities, nfds, actions))
  {
    var s := Fresh(sigEvent, pipe, pri, npriorities, nfds, actions);
    EmptyTotal(s.active);
    assert Counted(s, Inserted) == {} && Counted(s, Active) == {} && Counted(s, Timeout) == {};
  }

  lemma FreshInv(sigEvent: Event, pipe: nat, pri: nat, npriorities: nat, nfds: nat, actions: map<int, Action>)
    requires pri < npriorities && nfds > 0
    ensures Inv(Fresh(sigEvent, pipe, pri, npriorities, nfds, actions))
  {
    hide Core;
    FreshCore(sigEvent, pipe, pri, npriorities, nfds, actions);
    assert KernelOf(Fresh(sigEvent, pipe, pri, npriorities, nfds, actions).poll.table) == map[];
  }

  lemma AttachCounted(s: State, e: Event, fd: int, events: set<What>, q: Flag)
    requires (e !in s.evs || Idle(s, e)) && q in QUEUES
    ensures Counted(AttachTo(s, e, fd, events), q) == Counted(s, q)
  {
  }

  lemma AttachLists(s: State, e: Event, fd: int, events: set<What>)
    requires Lists(s) && (e !in s.evs || Idle(s, e))
    ensures Lists(AttachTo(s, e, fd, events))
  {
    IdleFlags(s, e);
  }

  lemma IdleFlags(s: State, e: Event)
    ensures Idle(s, e) ==> Timeout !in s.evs[e].flags && Inserted !in s.evs[e].flags && Active !in s.evs[e].flags
  {
    if Idle(s, e) {
      assert Timeout !in s.evs[e].flags * QUEUES && Inserted !in s.evs[e].flags * QUEUES && Active !in s.evs[e].flags * QUEUES;
    }
  }

  lemma AttachCore(s: State, e: Event, fd: int, events: set<What>)
    requires Core(s) && SelfPipe(s) && Permitted(s, Attach(e, fd, events))
    ensures Core(AttachTo(s, e, fd, events))
  {
    hide Counted, TotalLen, Lists;
    assert |s.active| > 0 by { assert Shape(s, s.evs[s.sigEvent]); }
    AttachCounted(s, e, fd, events, Inserted);
    AttachCounted(s, e, fd, events, Active);
    AttachCounted(s, e, fd, events, Timeout);
    AttachLists(s, e, fd, events);
  }

  lemma AttachSlots(s: State, e: Event, fd: int, events: set<What>)
    requires Slots(s) && (e !in s.evs || Idle(s, e))
    ensures Slots(AttachTo(s, e, fd, events))
  {
    var s' := AttachTo(s, e, fd, events);
    forall fd | 0 <= fd < |s.poll.table| && s.poll.table[fd].evread != null
      ensures InterestedIn(s', s.poll.table[fd].evread, fd, Read) {
      assert InterestedIn(s, s.poll.table[fd].evread, fd, Read);
    }
    forall fd | 0 <= fd < |s.poll.table| && s.poll.table[fd].evwrite != null
      ensures InterestedIn(s', s.poll.table[fd].evwrite, fd, Write) {
      assert InterestedIn(s, s.poll.table[fd].evwrite, fd, Write);
    }
  }

  lemma AttachSignals(s: State, e: Event, fd: int, events: set<What>)
    requires Signals(s) && (e !in s.evs || Idle(s, e))
    ensures Signals(AttachTo(s, e, fd, events))
  {
    forall i, x | 0 <= i < NSIG && x in s.sigs[i] ensures InterestedIn(AttachTo(s, e, fd, events), x, i, Signal) {
      assert InterestedIn(s, x, i, Signal);
    }
  }

  lemma AttachInv(s: State, e: Event, fd: int, events: set<What>)
    requires Inv(s) && Permitted(s, Attach(e, fd, events))
    ensures Inv(AttachTo(s, e, fd, events))
  {
    hide Core, Slots, Signals, Agree;
    AttachCore(s, e, fd, events);
    AttachSlots(s, e, fd, events);
    AttachSignals(s, e, fd, events);
    assert Read in events ==> Read in events * IO_EVENTS;
  }

  lemma StepInv(s: State, op: Op)
    requires Inv(s) && Permitted(s, op)
    ensures Inv(Step(s, op))
  {
    hide Core, Wired;
    match op {
      case Attach(e, fd, events) => AttachInv(s, e, fd, events);
      case EventAdd(e, tv, env) => AddInv(s, e, tv, env);
      case EventDel(e) => DelInv(s, e);
      case EventActive(e, res, ncalls) => MakeActiveInv(s, e, res, ncalls);
      case EventPriority(e, pri) => PrioritySetInv(s, e, pri);
      case LoopBreak => SamesInv(s, Step(s, op));
    }
  }

  /** Whatever a program does within the contract, flags, lists, counters, heap, interest
      table, kernel registrations and signal lists of its base keep telling the same story. */
  lemma {:induction false} RunInv(s: State, ops: seq<Op>)
    requires Inv(s) && Obeys(s, ops)
    ensures Inv(Run(s, ops))
    decreases |ops|
  {
    if ops != [] {
      hide Inv, Permitted, Step;
      StepInv(s, ops[0]);
      RunInv(Step(s, ops[0]), ops[1..]);
    }
  }

  lemma EveryRunInv(sigEvent: Event, pipe: nat, pri: nat, npriorities: nat, nfds: nat, actions: map<int, Action>, ops: seq<Op>)
    requires pri < npriorities && nfds > 0
    requires Obeys(Fresh(sigEvent, pipe, pri, npriorities, nfds, actions), ops)
    ensures Inv(Run(Fresh(sigEvent, pipe, pri, npriorities, nfds, actions), ops))
  {
    FreshInv(sigEvent, pipe, pri, npriorities, nfds, actions);
    RunInv(Fresh(sigEvent, pipe, pri, npriorities, nfds, actions), ops);
  }
}
