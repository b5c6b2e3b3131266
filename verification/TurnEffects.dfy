/** What one turn of event_base_loop owes an event, from the kernel's answer to its calls. */
module TurnEffects {
  import opened Seqs
  import opened Timevals
  import opened Events
  import opened Epoll
  import opened BaseState
  import opened BaseInv
  import opened BaseEffects
  import opened BaseRuns
  import opened Timeouts
  import opened ActivePass
  import opened PassHistory
  import opened Dispatch
  import opened Clock
  import opened EventLoop

  /** The kernel's reports of the turn. */
  function Reports(t: Turn): seq<EpollEvent> {
    if t.res == -1 then [] else t.events
  }

  /** The event's deadline has passed when timeout_process reads the clock, and its timer has
      not gone with a caught signal. */
  ghost predicate Elapsed(s: State, t: Turn, e: Event) {
    && e in s.evs && On(s, e, Timeout) && !Later(Corrected(s, t.back).evs[e].timeout, t.now)
    && !(Caught(s, e, Heeded(t), 1) && Persist !in s.evs[e].events)
  }

  /** An event has a reason to run. */
  ghost predicate Owed(s: State, t: Turn, e: Event) {
    && e in s.evs
    && (Active in s.evs[e].flags || Elapsed(s, t, e) || Caught(s, e, Heeded(t), 1)
        || ReportedFor(s, e, Read, Reports(t)) || ReportedFor(s, e, Write, Reports(t)))
  }

  /** How often it is to be called: once for a deadline or a descriptor, as often as the
      signal was caught, and as often as it was before if it waits to be called already. */
  ghost function CallsOwed(s: State, t: Turn, e: Event): int
    requires e in s.evs
  {
    if Elapsed(s, t, e) then 1
    else if Active in s.evs[e].flags && !(Caught(s, e, Heeded(t), 1) && Persist !in s.evs[e].events) then s.evs[e].ncalls
    else if Caught(s, e, Heeded(t), 1) then Heeded(t)[s.evs[e].fd] % 0x1_0000
    else 1
  }

  lemma CorrectedSame(s: State, t: Turn, e: Event)
    requires e in s.evs
    ensures var s1 := Corrected(s, t.back);
            && s1.evs.Keys == s.evs.Keys && s1.heap == s.heap && s1.evs[e].(timeout := s.evs[e].timeout) == s.evs[e]
            && (Caught(s1, e, Heeded(t), 1) <==> Caught(s, e, Heeded(t), 1))
            && (forall w :: ReportedFor(s1, e, w, Reports(t)) <==> ReportedFor(s, e, w, Reports(t)))
  {
  }

  /** timeout_process meets exactly the events whose deadlines have passed by then. */
  lemma OrderIs(s: State, t: Turn, e: Event)
    requires Inv(s) && Lawful(s, t) && e in s.evs
    ensures e in t.order <==> Elapsed(s, t, e)
  {
    hide Inv, Dispatched, Serves, ExpireAll, AllExpired, Covered, Answered;
    var s1 := Corrected(s, t.back);
    CorrectedInv(s, t.back);
    CorrectedSame(s, t, e);
    DispatchedInv(s1, t);
    var s2 := Dispatched(s1, t);
    DispatchAnswers(s1, t);
    AnsweredOne(s1, s2, e, Heeded(t), Reports(t));
    TimeoutProcessExact(s2, t.now, t.order);
    InHeapIff(s2);
    InHeapIff(s1);
  }

  lemma AnsweredOne(s: State, s': State, e: Event, caught: seq<nat>, rs: seq<EpollEvent>)
    requires Answered(s, s', caught, rs) && e in s.evs
    ensures e in s'.evs && s'.evs[e] == AnsweredEv(s, e, caught, rs) && s'.evs[e].timeout == s.evs[e].timeout
    ensures Timeout in s'.evs[e].flags <==> Timeout in s.evs[e].flags && !(Caught(s, e, caught, 1) && Persist !in s.evs[e].events)
  {
  }

  /** When the callbacks begin, an event whose deadline has passed is due for that alone, with
      one call and off every structure but its queue; any other is what epoll_dispatch owes
      it. */
  lemma TurnAnswers(s: State, t: Turn, e: Event)
    requires Inv(s) && Lawful(s, t) && e in s.evs
    ensures var ev, ev' := Corrected(s, t.back).evs[e], Of(Waited(s, t), e);
            ev' == if Elapsed(s, t, e)
                   then ev.(flags := ev.flags - {Timeout, Inserted} + {Active}, res := {TimedOut}, ncalls := 1, pncalls := 0)
                   else AnsweredEv(Corrected(s, t.back), e, Heeded(t), Reports(t))
  {
    hide Inv, Dispatched, Serves, ExpireAll, ServedInOrder, Covered, Answered, Elapsed;
    var s1 := Corrected(s, t.back);
    CorrectedInv(s, t.back);
    CorrectedSame(s, t, e);
    DispatchedInv(s1, t);
    var s2 := Dispatched(s1, t);
    DispatchAnswers(s1, t);
    AnsweredOne(s1, s2, e, Heeded(t), Reports(t));
    TimeoutProcessExact(s2, t.now, t.order);
    OrderIs(s, t, e);
    ExpiredIs(s1, e, Heeded(t), Reports(t));
  }

  lemma ExpiredIs(s: State, e: Event, caught: seq<nat>, rs: seq<EpollEvent>)
    requires e in s.evs
    ensures var ev := s.evs[e];
            Expired(AnsweredEv(s, e, caught, rs))
            == ev.(flags := ev.flags - {Timeout, Inserted} + {Active}, res := {TimedOut}, ncalls := 1, pncalls := 0)
  {
    var ev, a := s.evs[e], AnsweredEv(s, e, caught, rs);
    assert a.flags - QUEUES + {Active} == ev.flags - {Timeout, Inserted} + {Active};
  }

  lemma OwedIsActive(s: State, t: Turn, e: Event)
    requires Inv(s) && Lawful(s, t) && Owed(s, t, e)
    ensures var ev' := Of(Waited(s, t), e);
            Active in ev'.flags && ev'.ncalls == CallsOwed(s, t, e) && ev'.pri == s.evs[e].pri && e in Waited(s, t).evs
  {
    hide Inv, Lawful, Waited, Corrected, Elapsed;
    TurnAnswers(s, t, e);
    CorrectedSame(s, t, e);
    KnownStays(s, t, e);
  }

  lemma KnownStays(s: State, t: Turn, e: Event)
    requires Inv(s) && Lawful(s, t) && e in s.evs
    ensures e in Waited(s, t).evs
  {
    hide Inv, Dispatched, Serves, ExpireAll, ServedInOrder, Covered;
    CorrectedInv(s, t.back);
    DispatchedInv(Corrected(s, t.back), t);
    TimeoutProcessExact(Dispatched(Corrected(s, t.back), t), t.now, t.order);
  }

  /** From the kernel's answer to the calls: an event that has a reason to run is called in
      this turn, exactly as often as it is owed, if its priority is the first that has
      anything to run and no callback takes it or another event it serves off; with a lower
      priority it waits for a later turn. */
  lemma OwedIsCalled(s: State, t: Turn, e: Event) returns (i: nat)
    requires Inv(s) && Lawful(s, t) && Owed(s, t, e) && !PassHistory.RemovedBy(t.script, e)
    requires var s3 := Waited(s, t); Inv(s3) && FirstQueue(s3.active) < |s3.active| && Processed(s3, t.script).stop == Done
    ensures var s3, o := Waited(s, t), Processed(Waited(s, t), t.script);
            && Turned(s, t) == o.s
            && if s.evs[e].pri == FirstQueue(s3.active) then
                 && i < |o.log| && o.log[i].e == e && o.log[i].due == CallsOwed(s, t, e)
                 && (!DeletesAny(t.script, set y | y in Heads(o.log)) ==> o.log[i].made == CallsOwed(s, t, e))
               else
                 && e in o.s.evs && Active in o.s.evs[e].flags && o.s.evs[e].ncalls == CallsOwed(s, t, e)
  {
    hide Inv, Waited, Lawful, Owed, CallsOwed, Processed, FirstQueue, DeletesAny;
    OwedIsActive(s, t, e);
    i := ActiveIsCalled(Waited(s, t), t.script, e);
  }

  /** And if anything is owed there is a first queue to serve. */
  lemma OwedIsServed(s: State, t: Turn, e: Event)
    requires Inv(s) && Lawful(s, t) && Owed(s, t, e)
    ensures Inv(Waited(s, t)) && FirstQueue(Waited(s, t).active) <= s.evs[e].pri < |Waited(s, t).active|
    ensures Processed(Waited(s, t), t.script).stop in {Done, Broke}
  {
    hide Inv, Waited, Turned, Elapsed, Dispatched, Serves, Processed, Caught, ReportedFor;
    TurnInv(s, t);
    OwedIsActive(s, t, e);
    QueueOf(Waited(s, t), e);
    FirstAtMost(Waited(s, t).active, s.evs[e].pri);
  }

  lemma {:induction false} FirstAtMost(active: seq<seq<Event>>, q: nat)
    requires q < |active| && active[q] != []
    ensures FirstQueue(active) <= q
  {
    if active[0] == [] {
      FirstAtMost(active[1..], q - 1);
    }
  }
}
