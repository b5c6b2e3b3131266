/** The loops of event.cpp over the structures of a base: expiring timers, serving active
    events, tearing the base down. */
module BaseLoops {
  import opened Seqs
  import opened Timevals
  import opened Events
  import opened MinHeaps
  import opened Epoll
  import opened BaseState
  import opened BaseInv
  import opened BaseRuns
  import opened BaseEffects
  import opened Timeouts
  import opened ActivePass
  import opened EventBases

  // ----- timeout_process -----

  /** `order` is what the loop has found at the top of the heap so far. */
  ghost predicate Found(s: State, now: Timeval, order: seq<Event>)
    decreases |order|
  {
    order == [] || (Earliest(s, order[0]) && Due(s, order[0], now) && Found(Expire(s, order[0]), now, order[1..]))
  }

  lemma {:induction false} FoundNext(s: State, now: Timeval, order: seq<Event>, e: Event)
    requires Found(s, now, order)
    requires Earliest(ExpireAll(s, order), e) && Due(ExpireAll(s, order), e, now)
    ensures Found(s, now, order + [e]) && ExpireAll(s, order + [e]) == Expire(ExpireAll(s, order), e)
    decreases |order|
  {
    hide Expire, Earliest, Due;
    if order == [] {
      assert [e][1..] == [];
    } else {
      FoundNext(Expire(s, order[0]), now, order[1..], e);
      assert (order + [e])[1..] == order[1..] + [e];
    }
  }

  lemma {:induction false} FoundAll(s: State, now: Timeval, order: seq<Event>)
    requires Found(s, now, order) && forall x | x in ExpireAll(s, order).heap :: !Due(ExpireAll(s, order), x, now)
    ensures Serves(s, now, order)
    decreases |order|
  {
    hide Expire, Earliest;
    assert order == [] ==> ExpireAll(s, order) == s;
    if order != [] {
      assert ExpireAll(s, order) == ExpireAll(Expire(s, order[0]), order[1..]);
      FoundAll(Expire(s, order[0]), now, order[1..]);
    }
  }

  /** The deadlines the heap orders by are those recorded for its events. */
  lemma HeapKnown(base: EventBase)
    requires base.Valid() && Inv(base.view)
    ensures base.timeheap.Valid() && base.timeheap.elems == base.view.heap && base in base.Repr && base.timeheap in base.Repr
    ensures forall e | e in base.view.heap ::
              e in base.view.evs && e != base.view.sigEvent && e.ev_timeout == Of(base.view, e).timeout && e in base.Repr
    ensures base.ev_signal == base.view.sigEvent && base.ev_signal in base.view.evs
  {
    hide MinHeap.Valid, EventBase.QueuesAgree, EventBase.LinksAgree, Slots, Signals, Agree, Counts;
  }

  /** What one turn of the loop needs to know, and what it leaves. */
  lemma ExpireFacts(s: State, e: Event)
    requires Inv(s) && e in s.heap
    ensures e in s.evs && e != s.sigEvent && Inv(Expire(s, e)) && Expire(s, e).heap == s.heap - {e}
    ensures Core(Del(s, e).0) && Inv(Del(s, e).0) && e in Del(s, e).0.evs
    ensures Del(s, e).0.sigEvent == s.sigEvent && s.sigEvent in Del(s, e).0.evs
    ensures Expire(s, e).evs.Keys == s.evs.Keys
  {
    hide Core, Wired, Del, Expire, Without;
    InHeap(s, e);
    SelfPipeIsKnown(s);
    ExpireInv(s, e);
    ExpireEffect(s, e);
    DelInv(s, e);
    DelBackend(s, e);
  }

  /** timeout_process */
  method TimeoutProcess(base: EventBase, now: Timeval) returns (ghost order: seq<Event>)
    requires base.Valid() && Inv(base.view)
    modifies base, base.Repr
    ensures base.Valid() && base.Repr == old(base.Repr) && Inv(base.view)
    ensures Serves(old(base.view), now, order) && base.view == ExpireAll(old(base.view), order)
  {
    hide EventBase.Valid, Inv, Expire, Earliest, Due, MinHeap.Valid, Later, Core, Del, MakeActive, Serves;
    ghost var s := base.view;
    order := [];
    while true
      invariant base.Valid() && base.Repr == old(base.Repr) && Inv(base.view)
      invariant Found(s, now, order) && base.view == ExpireAll(s, order)
      decreases |base.view.heap|
    {
      HeapKnown(base);
      var ev := base.timeheap.Top();
      if ev == null || Later(ev.ev_timeout, now) {
        NoneDue(base.view, now, ev);
        break;
      }
      EarliestDue(base.view, now, ev);
      ExpireFacts(base.view, ev);
      FoundNext(s, now, order, ev);
      ghost var was := base.view;
      Expiring(base, ev);
      Shrinks(was.heap, ev);
      order := order + [ev];
    }
    FoundAll(s, now, order);
  }

  lemma NoneDue(s: State, now: Timeval, e: Event?)
    requires if e == null then s.heap == {} else e in s.heap && Later(Of(s, e).timeout, now)
    requires e != null ==> forall x | x in s.heap :: !Later(Of(s, e).timeout, Of(s, x).timeout)
    ensures forall x | x in s.heap :: !Due(s, x, now)
  {
  }

  lemma EarliestDue(s: State, now: Timeval, e: Event)
    requires e in s.heap && !Later(Of(s, e).timeout, now)
    requires forall x | x in s.heap :: !Later(Of(s, e).timeout, Of(s, x).timeout)
    ensures Earliest(s, e) && Due(s, e, now)
  {
  }

  lemma Shrinks<T>(a: set<T>, x: T)
    requires x in a
    ensures |a - {x}| < |a|
  {
  }

  method Expiring(base: EventBase, ev: Event)
    requires base.Valid() && Inv(base.view) && ev in base.view.heap && base in base.Repr
    modifies base, base.Repr
    ensures base.Valid() && base.Repr == old(base.Repr) && base.view == Expire(old(base.view), ev)
  {
    hide EventBase.Valid, Inv, MinHeap.Valid, Core, Del, MakeActive;
    HeapKnown(base);
    ExpireFacts(base.view, ev);
    var r := base.EventDel(ev);
    base.FieldsKnown(ev);
    base.EventActive(ev, {TimedOut}, 1);
  }

  // ----- callbacks -----

  /** An event that a callback is yet to set up for the first time is unknown to the base. */
  ghost predicate Unattached(base: EventBase, op: Op)
    reads *
  {
    op.Attach? && op.e !in base.view.evs ==>
      && Apart(op.e, base.Repr)
      && op.e.HasLinks() && op.e.inserted.on == null && op.e.active.on == null && op.e.signal.on == null
      && op.e.ev_timeout == Timeval(0, 0)
  }

  ghost predicate Apart(e: Event, repr: set<object>) {
    e !in repr && e.inserted !in repr && e.active !in repr && e.signal !in repr
  }

  ghost predicate Ready(base: EventBase, all: set<Op>)
    reads *
  {
    forall op | op in all :: Unattached(base, op)
  }

  /** The events, with their links, that `all` may attach. */
  ghost function Outside(all: set<Op>): set<object> {
    (set op | op in all && op.Attach? :: op.e) + (set op | op in all && op.Attach? :: op.e.inserted)
    + (set op | op in all && op.Attach? :: op.e.active) + (set op | op in all && op.Attach? :: op.e.signal)
  }

  predicate Covers(all: set<Op>, script: seq<seq<Op>>) {
    forall i | 0 <= i < |script| :: forall op | op in script[i] :: op in all
  }

  lemma CoversRest(all: set<Op>, script: seq<seq<Op>>)
    requires Covers(all, script) && script != []
    ensures Covers(all, script[1..]) && forall op | op in script[0] :: op in all
  {
    assert forall i | 0 <= i < |script[1..]| :: script[1..][i] == script[i+1];
  }

  lemma InOutside(op: Op, all: set<Op>)
    requires op in all && op.Attach?
    ensures op.e in Outside(all) && op.e.inserted in Outside(all) && op.e.active in Outside(all) && op.e.signal in Outside(all)
  {
  }

  /** What is not attached yet is none of the base's business. */
  twostate lemma ReadyStays(base: EventBase, new all: set<Op>)
    requires old(allocated(all)) && old(Ready(base, all)) && old(base.view).evs.Keys <= base.view.evs.Keys
    requires forall op | op in all && op.Attach? && Apart(op.e, old(base.Repr)) ::
               Apart(op.e, base.Repr) && unchanged(op.e) && unchanged(op.e.inserted) && unchanged(op.e.active) && unchanged(op.e.signal)
    ensures Ready(base, all)
  {
    forall op | op in all ensures Unattached(base, op) {
      if op.Attach? {
        assert old(Unattached(base, op));
      }
    }
  }

  twostate lemma ReadyAttached(base: EventBase, new e: Event, new all: set<Op>)
    requires old(allocated(all)) && old(Ready(base, all)) && base.view.evs.Keys == old(base.view).evs.Keys + {e}
    requires base.Repr == old(base.Repr) + {e, e.inserted, e.active, e.signal} && e.HasLinks()
    requires forall op | op in all && op.Attach? && op.e != e && Apart(op.e, old(base.Repr)) ::
               unchanged(op.e) && unchanged(op.e.inserted) && unchanged(op.e.active) && unchanged(op.e.signal)
    ensures Ready(base, all)
  {
    forall op | op in all ensures Unattached(base, op) {
      if op.Attach? && op.e != e {
        assert old(Unattached(base, op));
      }
    }
  }

  /** One call of the API. */
  method Do(base: EventBase, op: Op, ghost all: set<Op>)
    requires base.Valid() && Inv(base.view) && Permitted(base.view, op) && op in all && Ready(base, all) && base in base.Repr
    modifies base, base.Repr, Outside(all)
    ensures base.Valid() && base.view == Step(old(base.view), op) && Ready(base, all) && old(base.Repr) <= base.Repr
    ensures forall o: object | o in base.Repr :: o in old(base.Repr) || o in Outside(all) || fresh(o)
  {
    hide EventBase.Valid, Inv, Core, Ready, Outside, Unattached, Add, Del, MakeActive, PrioritySet;
    PipeFacts(base.view);
    StepKeeps(base.view, op);
    base.PipeKnown();
    match op {
      case Attach(e, fd, events) =>
        InOutside(op, all);
        UnattachedNow(base, op, all);
        SetUpEvent(base, e, fd, events, all);
      case EventAdd(e, tv, env) =>
        AddPermitted(base, e);
        var r := base.EventAdd(e, tv, env);
        ReadyStays(base, all);
      case EventDel(e) =>
        var r := base.EventDel(e);
        ReadyStays(base, all);
      case EventActive(e, res, ncalls) =>
        base.EventActive(e, res, ncalls);
        ReadyStays(base, all);
      case EventPriority(e, pri) =>
        base.FieldsKnown(e);
        var r := base.EventPrioritySet(e, pri);
        ReadyStays(base, all);
      case LoopBreak =>
        base.EventBaseLoopbreak();
        ReadyStays(base, all);
    }
  }

  lemma PipeFacts(s: State)
    requires Inv(s)
    ensures s.sigEvent in s.evs && Core(s)
  {
  }

  lemma UnattachedNow(base: EventBase, op: Op, all: set<Op>)
    requires Ready(base, all) && op in all && op.Attach? && Permitted(base.view, op)
    ensures base.Foreign(op.e) || Idle(base.view, op.e)
  {
    assert Unattached(base, op);
  }

  lemma AddPermitted(base: EventBase, e: Event)
    requires AddOk(base.view, e)
    ensures base.AddOk'(base.view, e) && e != base.view.sigEvent
  {
  }

  method SetUpEvent(base: EventBase, e: Event, fd: int, events: set<What>, ghost all: set<Op>)
    requires base.Valid() && Inv(base.view) && Ready(base, all) && e in Outside(all) && (base.Foreign(e) || Idle(base.view, e))
    requires e.inserted in Outside(all) && e.active in Outside(all) && e.signal in Outside(all)
    modifies base`view, base`Repr, e`ev_fd, e`ev_events, e`ev_res, e`ev_flags, e`ev_ncalls, e`ev_pncalls, e`ev_pri, e`min_heap_idx
    ensures base.Valid() && Ready(base, all) && base.view == AttachTo(old(base.view), e, fd, events)
    ensures base.Repr == old(base.Repr) || base.Repr == old(base.Repr) + {e, e.inserted, e.active, e.signal}
  {
    hide EventBase.Valid, Inv, Ready, Outside, Unattached, EventBase.Foreign;
    ghost var known := e in base.view.evs;
    if known {
      base.FieldsKnown(e);
    } else {
      Strange(base, e);
    }
    base.SetUp(e, fd, events);
    if known {
      ReadyStays(base, all);
    } else {
      ReadyAttached(base, e, all);
    }
  }

  lemma Strange(base: EventBase, e: Event)
    requires base.Foreign(e) || Idle(base.view, e)
    ensures e !in base.view.evs ==> e.HasLinks()
  {
  }

  /** A callback: the calls `ops`, one after the other. */
  method Invoke(base: EventBase, ops: seq<Op>, ghost all: set<Op>)
    requires base.Valid() && Inv(base.view) && Obeys(base.view, ops) && Ready(base, all) && base in base.Repr
    requires forall op | op in ops :: op in all
    modifies base, base.Repr, Outside(all)
    ensures base.Valid() && base.view == Run(old(base.view), ops) && Ready(base, all) && old(base.Repr) <= base.Repr
    ensures forall o: object | o in base.Repr :: o in old(base.Repr) || o in Outside(all) || fresh(o)
    decreases |ops|
  {
    hide EventBase.Valid, Inv, Ready, Outside, Permitted, Step;
    if ops != [] {
      StepInv(base.view, ops[0]);
      Do(base, ops[0], all);
      Invoke(base, ops[1..], all);
    }
  }

  // ----- event_process_active -----

  lemma ActiveKnown(base: EventBase, q: nat)
    requires base.Valid() && Inv(base.view) && q < |base.view.active|
    ensures |base.activequeues| == |base.view.active|
    ensures base.activequeues[q].first == null <==> base.view.active[q] == []
    ensures base.view.active[q] != [] ==> base.activequeues[q].first.home == base.view.active[q][0]
  {
    hide Core, Wired, EventBase.TablesAgree, EventBase.LinksAgree;
    if base.view.active[q] != [] {
      HeadOfQueue(base.view, q);
      assert Represents(base.activequeues[q], base.view.active[q], ActiveLink);
      assert base.activequeues[q].elems[0] == base.view.active[q][0].active;
    }
  }

  lemma CountedActive(s: State)
    requires Inv(s)
    ensures s.countActive != 0 <==> FirstQueue(s.active) < |s.active|
  {
    hide InsertedList, TimerHeap, ActiveQueues, Wired, Counted;
    EmptyOrNot(s.active);
  }

  lemma {:induction false} EmptyOrNot(active: seq<seq<Event>>)
    ensures TotalLen(active) != 0 <==> FirstQueue(active) < |active|
  {
    if active != [] && active[0] == [] {
      EmptyOrNot(active[1..]);
    }
  }

  /** Taking the head `ev` of a queue. */
  method Taking(base: EventBase, ev: Event, ghost q: nat)
    requires base.Valid() && Inv(base.view) && base in base.Repr
    requires q < |base.view.active| && base.view.active[q] != [] && ev == base.view.active[q][0]
    modifies base, base.Repr
    ensures base.Valid() && base.Repr == old(base.Repr) && base.view == Serve(old(base.view), ev)
  {
    hide EventBase.Valid, Inv, Core, Del, QRemove;
    HeadOfQueue(base.view, q);
    base.FieldsKnown(ev);
    if Persist in ev.ev_events {
      ServePersistInv(base.view, ev);
      PipeFacts(base.view);
      base.RemoveList(ev, Active);
    } else {
      DelInv(base.view, ev);
      var r := base.EventDel(ev);
    }
    PipeFacts(base.view);
    ServeInv(old(base.view), q);
    base.StartCalls(ev);
  }

  /** How the loop of Calls goes on, unless the script is too short or breaks the contract. */
  lemma CallsNext(s: State, e: Event, script: seq<seq<Op>>)
    requires s.cell.n != 0 && Calls(s, e, script).stop in {Done, Broke}
    ensures script != [] && Obeys(Calling(s, e), script[0])
    ensures var s2 := Run(Calling(s, e), script[0]);
            var o := Calls(s2, e, script[1..]);
            Calls(s, e, script) == if s2.broken then Outcome(s2, script[1..], [e], [], Broke) else o.(calls := [e] + o.calls)
  {
    hide Obeys, Run, Calling;
  }

  /** while (ncalls) { ... } for one event; it ends early if a callback breaks the loop. */
  method Repeat(base: EventBase, ev: Event, script: seq<seq<Op>>, ghost all: set<Op>)
    returns (rest: seq<seq<Op>>, broke: bool, ghost o: Outcome)
    requires base.Valid() && Inv(base.view) && Ready(base, all) && base in base.Repr
    requires ev in base.view.evs && 0 <= base.view.cell.n < 0x1_0000
    requires Covers(all, script)
    requires Calls(base.view, ev, script).stop in {Done, Broke}
    modifies base, base.Repr, Outside(all)
    ensures base.Valid() && Ready(base, all) && old(base.Repr) <= base.Repr
    ensures forall x: object | x in base.Repr :: x in old(base.Repr) || x in Outside(all) || fresh(x)
    ensures o == Calls(old(base.view), ev, script) && base.view == o.s && rest == o.rest && (broke <==> o.stop == Broke)
    ensures Covers(all, rest)
  {
    hide EventBase.Valid, Inv, Ready, Outside, Calls, Calling, Run, Obeys, Core, SomeStops, Covers;
    o := Calls(base.view, ev, script);
    ghost var calls: seq<Event> := [];
    rest, broke := script, false;
    base.FieldsKnown(ev);
    while base.ncalls.n != 0
      invariant base.Valid() && Inv(base.view) && Ready(base, all) && base in base.Repr && old(base.Repr) <= base.Repr
      invariant ev in base.view.evs && base.ncalls == base.view.cell && 0 <= base.view.cell.n < 0x1_0000
      invariant forall x: object | x in base.Repr :: x in old(base.Repr) || x in Outside(all) || fresh(x)
      invariant Covers(all, rest)
      invariant var c := Calls(base.view, ev, rest); o == c.(calls := calls + c.calls)
      decreases |rest|
    {
      CallsNext(base.view, ev, rest);
      CoversRest(all, rest);
      CallOnce(base, ev, rest[0], all);
      rest := rest[1..];
      base.FieldsKnown(ev);
      calls := calls + [ev];
      if base.event_break {
        broke := true;
        return;
      }
    }
    CallsNone(base.view, ev, rest);
  }

  /** One turn: the counter goes down, and the callback runs. */
  method CallOnce(base: EventBase, ev: Event, ops: seq<Op>, ghost all: set<Op>)
    requires base.Valid() && Inv(base.view) && Ready(base, all) && base in base.Repr
    requires ev in base.view.evs && 0 < base.view.cell.n < 0x1_0000 && Obeys(Calling(base.view, ev), ops)
    requires forall op | op in ops :: op in all
    modifies base, base.Repr, Outside(all)
    ensures base.Valid() && Inv(base.view) && Ready(base, all) && old(base.Repr) <= base.Repr
    ensures forall x: object | x in base.Repr :: x in old(base.Repr) || x in Outside(all) || fresh(x)
    ensures base.view == Run(Calling(old(base.view), ev), ops) && ev in base.view.evs && 0 <= base.view.cell.n < 0x1_0000
  {
    hide EventBase.Valid, Inv, Ready, Outside, Calling, Run, Obeys, Core, SomeStops;
    ghost var s := base.view;
    base.FieldsKnown(ev);
    CallingInv(s, ev);
    CallingCell(s, ev);
    PipeFacts(s);
    CountedDown(s, ev);
    label Counting:
    base.CountCall(ev);
    ReadyStays@Counting(base, all);
    RunInv(base.view, ops);
    RunKeeps(base.view, ops);
    RunCell(base.view, ops);
    Invoke(base, ops, all);
  }

  lemma CountedDown(s: State, e: Event)
    requires e in s.evs
    ensures Calling(s, e) == Put(s, e, Of(s, e).(ncalls := s.cell.n - 1)).(cell := s.cell.(n := s.cell.n - 1))
    ensures Calling(s, e).evs.Keys == s.evs.Keys
  {
  }

  /** The loop of Pass, with `calls` made and `log` kept so far, is to end in `o`. */
  ghost predicate ToEnd(o: Outcome, s: State, q: nat, script: seq<seq<Op>>, calls: seq<Event>, log: seq<Served>) {
    && Inv(s) && q < |s.active| && Pass(s, q, script).stop in {Done, Broke}
    && var c := Pass(s, q, script); o == c.(calls := calls + c.calls, log := log + c.log)
  }

  /** How the loop of Pass goes on. */
  lemma PassNext(o: Outcome, s: State, q: nat, script: seq<seq<Op>>, calls: seq<Event>, log: seq<Served>)
    requires ToEnd(o, s, q, script, calls, log) && s.active[q] != []
    ensures var e := s.active[q][0];
            var c := Calls(Serve(s, e), e, script);
            && c.stop in {Done, Broke} && |c.s.active| == |s.active| && Inv(c.s)
            && if c.stop == Broke then o == c.(calls := calls + c.calls, log := log + [Serving(s, e, script)])
               else ToEnd(o, c.s, q, c.rest, calls + c.calls, log + [Serving(s, e, script)])
                    && (|c.rest| < |script| || (|c.rest| == |script| && |c.s.active[q]| < |s.active[q]|))
  {
    hide Inv, Calls, Serve, Serving;
    var e := s.active[q][0];
    ServeInv(s, q);
    CallsInv(Serve(s, e), e, script);
    CallsNone(Serve(s, e), e, script);
    var c := Calls(Serve(s, e), e, script);
    if c.stop == Done {
      var c' := Pass(c.s, q, c.rest);
      assert calls + (c.calls + c'.calls) == calls + c.calls + c'.calls;
      assert log + ([Serving(s, e, script)] + c'.log) == log + [Serving(s, e, script)] + c'.log;
    }
  }

  /** event_process_active, called when some event is active.  The k-th callback of the
      pass performs script[k]; the script covers all of them and keeps the contract. */
  method ProcessActive(base: EventBase, script: seq<seq<Op>>, ghost all: set<Op>) returns (ghost o: Outcome)
    requires base.Valid() && Inv(base.view) && Ready(base, all) && base in base.Repr && base.event_count_active != 0
    requires Covers(all, script)
    requires FirstQueue(base.view.active) < |base.view.active| ==>
               Processed(base.view, script).stop in {Done, Broke}
    modifies base, base.Repr, Outside(all)
    ensures old(FirstQueue(base.view.active) < |base.view.active|)
    ensures o == old(Processed(base.view, script))
    ensures base.Valid() && base.view == o.s && Inv(base.view)
  {
    hide EventBase.Valid, Inv, Ready, Outside, Pass, Core, FirstQueue;
    base.PipeKnown();
    base.FieldsKnown(base.ev_signal);
    CountedActive(base.view);
    BegunInv(base.view);
    ghost var q := FirstQueue(base.view.active);
    var i := PickQueue(base);
    label Starting:
    base.BeginPass();
    ReadyStays@Starting(base, all);
    o := ServeQueue(base, i, script, all);
    BegunInv(base.view);
    base.EndPass();
    o := o.(s := base.view);
  }

  /** The loop over queue `i`. */
  method ServeQueue(base: EventBase, i: nat, script: seq<seq<Op>>, ghost all: set<Op>) returns (ghost o: Outcome)
    requires base.Valid() && Inv(base.view) && Ready(base, all) && base in base.Repr && i < |base.view.active| == |base.activequeues|
    requires Covers(all, script)
    requires Pass(base.view, i, script).stop in {Done, Broke}
    modifies base, base.Repr, Outside(all)
    ensures o == old(Pass(base.view, i, script)) && base.Valid() && base.view == o.s && Inv(base.view)
  {
    hide EventBase.Valid, Inv, Ready, Outside, Calls, Pass, Serve, Core, Serving, Covers, ToEnd;
    o := Pass(base.view, i, script);
    ghost var calls: seq<Event>, log: seq<Served> := [], [];
    var rest := script;
    AtStart(base.view, i, script);
    ActiveKnown(base, i);
    while base.activequeues[i].first != null
      invariant base.Valid() && Inv(base.view) && Ready(base, all) && base in base.Repr && old(base.Repr) <= base.Repr
      invariant i < |base.view.active| == |base.activequeues|
      invariant base.activequeues[i].first == null <==> base.view.active[i] == []
      invariant forall x: object | x in base.Repr :: x in old(base.Repr) || x in Outside(all) || fresh(x)
      invariant Covers(all, rest) && ToEnd(o, base.view, i, rest, calls, log)
      decreases |rest|, |ListAt(base.view.active, i)|
    {
      ActiveKnown(base, i);
      var ev := base.activequeues[i].first.home;
      PassNext(o, base.view, i, rest, calls, log);
      log := log + [Serving(base.view, ev, rest)];
      var broke;
      ghost var c;
      rest, broke, c := ServeOne(base, ev, i, rest, all);
      calls := calls + c.calls;
      if broke {
        return;
      }
      ActiveKnown(base, i);
    }
    PassEmpty(o, base.view, i, rest, calls, log);
  }

  lemma AtStart(s: State, q: nat, script: seq<seq<Op>>)
    requires Inv(s) && q < |s.active| && Pass(s, q, script).stop in {Done, Broke}
    ensures ToEnd(Pass(s, q, script), s, q, script, [], [])
  {
    hide Inv, Pass;
  }

  lemma PassEmpty(o: Outcome, s: State, q: nat, script: seq<seq<Op>>, calls: seq<Event>, log: seq<Served>)
    requires ToEnd(o, s, q, script, calls, log) && s.active[q] == []
    ensures o.s == s
  {
    hide Inv;
  }

  /** The first queue that is not empty. */
  method PickQueue(base: EventBase) returns (i: nat)
    requires base.Valid() && Inv(base.view) && FirstQueue(base.view.active) < |base.view.active|
    ensures i == FirstQueue(base.view.active) && i < |base.activequeues|
  {
    hide EventBase.Valid, Inv, FirstQueue;
    i := 0;
    ActiveKnown(base, 0);
    while base.activequeues[i].first == null
      invariant i <= FirstQueue(base.view.active) < |base.view.active| == |base.activequeues|
      invariant base.activequeues[i].first == null <==> base.view.active[i] == []
      decreases |base.activequeues| - i
    {
      FirstQueueLater(base.view.active, i);
      i := i + 1;
      ActiveKnown(base, i);
    }
  }

  lemma FirstQueueLater(active: seq<seq<Event>>, i: nat)
    requires i <= FirstQueue(active) < |active|
    ensures active[FirstQueue(active)] != []
  {
  }

  /** One turn of the loop. */
  method ServeOne(base: EventBase, ev: Event, ghost q: nat, script: seq<seq<Op>>, ghost all: set<Op>)
    returns (rest: seq<seq<Op>>, broke: bool, ghost c: Outcome)
    requires base.Valid() && Inv(base.view) && Ready(base, all) && base in base.Repr
    requires q < |base.view.active| && base.view.active[q] != [] && ev == base.view.active[q][0]
    requires Covers(all, script)
    requires Calls(Serve(base.view, ev), ev, script).stop in {Done, Broke}
    modifies base, base.Repr, Outside(all)
    ensures base.Valid() && Ready(base, all) && old(base.Repr) <= base.Repr
    ensures forall x: object | x in base.Repr :: x in old(base.Repr) || x in Outside(all) || fresh(x)
    ensures c == Calls(Serve(old(base.view), ev), ev, script) && base.view == c.s && rest == c.rest && (broke <==> c.stop == Broke)
    ensures Covers(all, rest)
  {
    hide EventBase.Valid, Inv, Ready, Outside, Calls, Serve, Core, Covers;
    ServeInv(base.view, q);
    Taking(base, ev, q);
    ReadyStays(base, all);
    rest, broke, c := Repeat(base, ev, script, all);
  }
}
