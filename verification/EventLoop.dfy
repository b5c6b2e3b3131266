/** event_base_loop: one turn, and any number of turns. */
module EventLoop {
  import opened Seqs
  import opened Timevals
  import opened Events
  import opened Epoll
  import opened BaseState
  import opened BaseInv
  import opened BaseRuns
  import opened BaseEffects
  import opened Timeouts
  import opened ActivePass
  import opened PassHistory
  import opened Dispatch
  import opened Clock
  import opened EventBases
  import opened BaseLoops
  import opened DispatchLoops

  /** What the outside world does in one turn: how far the clock has been set back, if at
      all, what epoll_wait returns and says, which signals were caught, the clock that
      timeout_process reads, the order in which it meets the due events (they may share a
      deadline), and what the callbacks do. */
  datatype Turn = Turn(back: Option<Timeval>, res: int, eintr: bool, evsignal_caught: bool, evsigcaught: seq<nat>,
                       events: seq<EpollEvent>, now: Timeval, order: seq<Event>, script: seq<seq<Op>>)

  ghost function Corrected(s: State, back: Option<Timeval>): State {
    if back.Some? then Shift(s, back.value) else s
  }

  /** epoll_dispatch from epoll_wait's return on. */
  ghost function Dispatched(s: State, t: Turn): State {
    if t.res == -1 then (if t.eintr then RaiseFrom(s, t.evsigcaught, 1) else s)
    else ReportAll(if t.evsignal_caught then RaiseFrom(s, t.evsigcaught, 1) else s, t.events)
  }

  ghost function Waited(s: State, t: Turn): State {
    ExpireAll(Dispatched(Corrected(s, t.back), t), t.order)
  }

  /** The state after the turn. */
  ghost function Turned(s: State, t: Turn): State {
    var s3 := Waited(s, t);
    if Inv(s3) && FirstQueue(s3.active) < |s3.active| then Processed(s3, t.script).s else s3
  }

  /** The world keeps to its rules: the loop over the timers meets `order`, and the script
      covers the callbacks and keeps the contract. */
  ghost predicate Lawful(s: State, t: Turn) {
    && !s.broken && |t.evsigcaught| == NSIG && Serves(Dispatched(Corrected(s, t.back), t), t.now, t.order)
    && Covered(Waited(s, t), t.script)
  }

  ghost predicate Covered(s: State, script: seq<seq<Op>>) {
    Inv(s) && FirstQueue(s.active) < |s.active| ==> Processed(s, script).stop in {Done, Broke}
  }

  lemma DispatchedInv(s: State, t: Turn)
    requires Inv(s) && |t.evsigcaught| == NSIG
    ensures Inv(Dispatched(s, t)) && Dispatched(s, t).evs.Keys == s.evs.Keys && Dispatched(s, t).poll == s.poll
  {
    hide Inv, Raised, Fired;
    RaiseFromEffect(s, t.evsigcaught, 1);
    ReportAllEffect(s, t.events);
    ReportAllEffect(RaiseFrom(s, t.evsigcaught, 1), t.events);
  }

  /** What is done for the events is what epoll_dispatch owes them. */
  lemma DispatchAnswers(s: State, t: Turn)
    requires Inv(s) && |t.evsigcaught| == NSIG
    ensures Answered(s, Dispatched(s, t), Heeded(t), if t.res == -1 then [] else t.events)
  {
    hide Inv, RaiseFrom, Answered;
    AnswersExactly(s, Heeded(t), if t.res == -1 then [] else t.events);
    assert ReportAll(s, []) == s && forall x :: ReportAll(x, []) == x;
  }

  /** The counters of the signals, if the turn looks at them: after EINTR, and if the flag
      is set when epoll_wait returns. */
  function Heeded(t: Turn): seq<nat> {
    if (if t.res == -1 then t.eintr else t.evsignal_caught) then t.evsigcaught else []
  }

  lemma CorrectedInv(s: State, back: Option<Timeval>)
    requires Inv(s)
    ensures Inv(Corrected(s, back))
  {
    hide Inv, Shift;
    if back.Some? { ShiftInv(s, back.value); }
  }

  /** When the callbacks of a turn begin, nothing that is due is left in the heap; and when
      they end, at a normal end, the queue they came from is empty. */
  lemma TurnInv(s: State, t: Turn)
    requires Inv(s) && Lawful(s, t)
    ensures Inv(Waited(s, t)) && Inv(Turned(s, t))
    ensures forall e | e in Waited(s, t).heap :: Later(Of(Dispatched(Corrected(s, t.back), t), e).timeout, t.now)
    ensures var a := Waited(s, t).active;
            FirstQueue(a) < |a| && !Turned(s, t).broken ==>
              |Turned(s, t).active| == |a| && Turned(s, t).active[FirstQueue(a)] == []
  {
    hide Inv, Dispatched, Corrected, Serves, ExpireAll, Pass, AllExpired, ServedInOrder;
    CorrectedInv(s, t.back);
    DispatchedInv(Corrected(s, t.back), t);
    TimeoutProcessExact(Dispatched(Corrected(s, t.back), t), t.now, t.order);
    var s3 := Waited(s, t);
    if FirstQueue(s3.active) < |s3.active| {
      BegunInv(s3);
      PassInv(Begun(s3), FirstQueue(s3.active), t.script);
      BegunInv(Pass(Begun(s3), FirstQueue(s3.active), t.script).s);
    }
  }

  /** A pass keeps the invariant however it ends, and ends early only if a callback broke
      the loop. */
  lemma {:induction false} PassInv(s: State, q: nat, script: seq<seq<Op>>)
    requires Inv(s) && q < |s.active|
    ensures var o := Pass(s, q, script);
            && Inv(o.s) && |o.s.active| == |s.active|
            && (o.stop == Done ==> o.s.active[q] == []) && (o.stop == Broke ==> o.s.broken)
    decreases |script|, |ListAt(s.active, q)|
  {
    hide Inv, Calls, Serve;
    if s.active[q] != [] {
      var e := s.active[q][0];
      ServeInv(s, q);
      CallsInv(Serve(s, e), e, script);
      CallsNone(Serve(s, e), e, script);
      BrokeMeansBroken(Serve(s, e), e, script);
      var o := Calls(Serve(s, e), e, script);
      if o.stop == Done {
        PassInv(o.s, q, o.rest);
      }
    }
  }

  lemma {:induction false} BrokeMeansBroken(s: State, e: Event, script: seq<seq<Op>>)
    ensures Calls(s, e, script).stop == Broke ==> Calls(s, e, script).s.broken
    decreases |script|
  {
    hide Run, Obeys, Calling;
    if s.cell.n != 0 && script != [] {
      BrokeMeansBroken(Run(Calling(s, e), script[0]), e, script[1..]);
    }
  }

  // ----- any number of turns -----

  /** Turns of the loop; its end at a turn's head because a callback broke it; and what the
      program calls between loops. */
  datatype Happening = Loop(turn: Turn) | Leave | Program(ops: seq<Op>)

  ghost function Happened(s: State, h: Happening): State {
    match h
    case Loop(t) => Turned(s, t)
    case Leave => s.(broken := false)
    case Program(ops) => Run(s, ops)
  }

  ghost predicate MayHappen(s: State, h: Happening) {
    match h
    case Loop(t) => Lawful(s, t)
    case Leave => true
    case Program(ops) => Obeys(s, ops)
  }

  ghost function After(s: State, hs: seq<Happening>): State
    decreases |hs|
  {
    if hs == [] then s else After(Happened(s, hs[0]), hs[1..])
  }

  ghost predicate AllLawful(s: State, hs: seq<Happening>)
    decreases |hs|
  {
    hs == [] || (MayHappen(s, hs[0]) && AllLawful(Happened(s, hs[0]), hs[1..]))
  }

  lemma HappenedInv(s: State, h: Happening)
    requires Inv(s) && MayHappen(s, h)
    ensures Inv(Happened(s, h))
  {
    hide Inv, Lawful, Turned, Run, Obeys;
    match h {
      case Loop(t) => TurnKeeps(s, t);
      case Leave => LeaveInv(s);
      case Program(ops) => RunInv(s, ops);
    }
  }

  lemma LeaveInv(s: State)
    requires Inv(s)
    ensures Inv(s.(broken := false))
  {
    hide Core, Wired;
    SamesInv(s, s.(broken := false));
  }

  /** The life of a base: whatever the program, its callbacks, the clock, the kernel and
      signals do, flags, lists, counters, heap and tables agree. */
  lemma {:induction false} LifeInv(s: State, hs: seq<Happening>)
    requires Inv(s) && AllLawful(s, hs)
    ensures Inv(After(s, hs))
    decreases |hs|
  {
    hide Inv, MayHappen, Happened;
    if hs != [] {
      HappenedInv(s, hs[0]);
      LifeInv(Happened(s, hs[0]), hs[1..]);
    }
  }

  lemma TurnKeeps(s: State, t: Turn)
    requires Inv(s) && Lawful(s, t)
    ensures Inv(Turned(s, t))
  {
    hide Inv, Lawful, Turned, Waited;
    TurnInv(s, t);
  }

  // ----- progress in one turn -----

  /** Dispatching takes events out of the timer heap, and changes no deadline. */
  lemma DispatchedTimers(s: State, t: Turn)
    requires Inv(s) && |t.evsigcaught| == NSIG
    ensures Dispatched(s, t).heap <= s.heap && forall e | e in s.evs :: Of(Dispatched(s, t), e).timeout == s.evs[e].timeout
  {
    hide Inv, ReportAll, RaiseFrom, Reasons, Caught;
    DispatchedInv(s, t);
    var s1 := if (if t.res == -1 then t.eintr else t.evsignal_caught) then RaiseFrom(s, t.evsigcaught, 1) else s;
    RaiseFromEffect(s, t.evsigcaught, 1);
    ReportAllEffect(s1, t.events);
    InHeapIff(s);
    InHeapIff(Dispatched(s, t));
  }

  lemma InHeapIff(s: State)
    requires Inv(s)
    ensures (forall e | e in s.heap :: e in s.evs) && forall e | e in s.evs :: e in s.heap <==> Timeout in s.evs[e].flags
  {
    hide Wired, Counts, InsertedList, ActiveQueues;
  }

  /** If the clock that timeout_process reads is past the wait that timeout_next and the
      backend came to, the turn leaves no event with the first deadline or an earlier one to
      its callbacks: all of them have expired, or were deleted for a signal. */
  lemma TurnProgress(s: State, t: Turn, next: Timeval, tv: Timeval, e: Event)
    requires Inv(s) && Lawful(s, t) && NormalTimers(Corrected(s, t.back)) && Normal(next) && Normal(t.now)
    requires NextWait(Corrected(s, t.back), next, Some(tv)) && Millis(tv) <= MAX_EPOLL_TIMEOUT_MSEC
    requires Earliest(Corrected(s, t.back), e) && Micros(t.now) >= Micros(next) + 1000 * EpollTimeout(Some(tv))
    ensures var s1 := Corrected(s, t.back);
            && (forall x | x in Waited(s, t).heap :: Later(Of(s1, x).timeout, Of(s1, e).timeout))
            && (e in Dispatched(s1, t).heap ==> e in t.order)
  {
    hide Inv, Dispatched, Corrected, Serves, ExpireAll, Covered, NextWait, Earliest, EpollTimeout;
    var s1 := Corrected(s, t.back);
    CorrectedInv(s, t.back);
    DispatchedInv(s1, t);
    DispatchedTimers(s1, t);
    InHeapIff(s1);
    WaitProgress(s1, next, tv, e, Dispatched(s1, t), t.now, t.order);
  }

  // ----- writes to a counter that is gone, over the life of a base -----

  lemma {:induction false} ExpireAllWild(s: State, order: seq<Event>)
    requires Inv(s) && NoDup(order) && !s.cell.running && forall x | x in order :: x in s.evs && x != s.sigEvent
    ensures ExpireAll(s, order).cell == s.cell.(wild := s.cell.wild || exists x | x in order :: Stale(s, x))
    decreases |order|
  {
    hide Inv, Expire, Expired;
    if order != [] {
      var e, rest := order[0], order[1..];
      ExpireInv(s, e);
      ExpireCell(s, e);
      assert forall x | x in rest :: x in order && x != e;
      assert forall x | x in order :: x == e || x in rest;
      ExpireAllWild(Expire(s, e), rest);
    }
  }

  lemma ExpireCell(s: State, e: Event)
    requires Inv(s) && e in s.evs && e != s.sigEvent && !s.cell.running
    ensures var s' := Expire(s, e);
            && s'.cell == s.cell.(wild := s.cell.wild || Stale(s, e)) && s'.sigEvent == s.sigEvent && s'.evs.Keys == s.evs.Keys
            && forall x | x != e :: Stale(s', x) <==> Stale(s, x)
  {
    hide Inv, Del;
    CoreOf(s);
    ExpireEffect(s, e);
    DelEffect(s, e);
  }

  /** The events a turn's signals delete: those of caught signals that are not persistent. */
  ghost predicate DeletedFor(s: State, e: Event, caught: seq<nat>, from: nat) {
    Caught(s, e, caught, from) && Persist !in s.evs[e].events
  }

  lemma {:induction false} RaiseAllWild(s: State, list: seq<Event>, sig: nat, n: nat)
    requires Inv(s) && !s.cell.running && Listening(s, list, sig)
    ensures RaiseAll(s, list, n).cell == s.cell.(wild := s.cell.wild ||
                                                 exists x | x in list :: Persist !in s.evs[x].events && Stale(s, x))
    decreases |list|
  {
    hide Inv, Raise, Raised;
    if list != [] {
      var e, rest, s1 := list[0], list[1..], Raise(s, list[0], n);
      assert [e] + rest == list && e in list;
      RaiseEffect(s, e, n);
      RaisedStatic(s.evs[e], n);
      RaiseCell(s, e, n);
      ListeningRest(s, s1, e, rest, sig);
      assert forall x | x in rest :: x in list && x != e;
      assert forall x | x in list :: x == e || x in rest;
      RaiseAllWild(s1, rest, sig, n);
    }
  }

  lemma RaiseCell(s: State, e: Event, n: nat)
    requires Inv(s) && e in s.evs && e != s.sigEvent && Inserted in s.evs[e].flags && Signal in s.evs[e].events && !s.cell.running
    ensures var s' := Raise(s, e, n);
            && s'.cell == s.cell.(wild := s.cell.wild || (Persist !in s.evs[e].events && Stale(s, e)))
            && forall x | x != e :: Stale(s', x) <==> Stale(s, x)
  {
    hide Inv, Del;
    CoreOf(s);
    DelEffect(s, e);
    RaiseEffect(s, e, n);
  }

  lemma RaiseOneWild(s: State, sig: nat, n: nat)
    requires Inv(s) && sig < NSIG && !s.cell.running
    ensures var s' := RaiseOne(s, sig, n);
            && s'.cell == s.cell.(wild := s.cell.wild || (n != 0 && exists x | x in s.evs ::
                 On(s, x, Inserted) && Signal in s.evs[x].events && s.evs[x].fd == sig && Persist !in s.evs[x].events && Stale(s, x)))
            && forall x | x in s.evs && !(n != 0 && On(s, x, Inserted) && Signal in s.evs[x].events && s.evs[x].fd == sig) ::
                 Stale(s', x) <==> Stale(s, x)
  {
    hide Inv, RaiseAll, Raised, Listening;
    WholeListening(s, sig);
    ListedIffInterested(s, sig);
    RaiseOneEffect(s, sig, n);
    if n != 0 {
      RaiseAllWild(s, s.sigs[sig], sig, n);
      Listed(s, s.sigs[sig], sig);
    }
  }

  lemma Listed(s: State, list: seq<Event>, sig: nat)
    requires Listening(s, list, sig)
    ensures forall x | x in list :: x in s.evs
  {
  }

  lemma {:induction false} RaiseFromWild(s: State, caught: seq<nat>, from: nat)
    requires Inv(s) && |caught| == NSIG && from <= NSIG && !s.cell.running
    ensures RaiseFrom(s, caught, from).cell ==
              s.cell.(wild := s.cell.wild || exists x | x in s.evs :: DeletedFor(s, x, caught, from) && Stale(s, x))
    decreases NSIG - from
  {
    hide Inv, RaiseOne, Raised;
    if from < NSIG {
      var n, s1 := caught[from], RaiseOne(s, from, caught[from]);
      RaiseOneEffect(s, from, n);
      RaiseOneWild(s, from, n);
      ListedIffInterested(s, from);
      RaiseFromWild(s1, caught, from + 1);
      forall x | x in s.evs
        ensures DeletedFor(s1, x, caught, from + 1) && Stale(s1, x) <==> DeletedFor(s, x, caught, from + 1) && Stale(s, x)
      {
        RaisedStatic(s.evs[x], n);
      }
    }
  }

  lemma {:induction false} ReportAllCell(s: State, rs: seq<EpollEvent>)
    ensures ReportAll(s, rs).cell == s.cell
    decreases |rs|
  {
    if rs != [] {
      ReportAllCell(Report(s, rs[0]), rs[1..]);
    }
  }

  /** Whether the turn deletes a stale event: for a signal, for a timeout, or in a callback. */
  ghost predicate TurnDeletesStale(s: State, t: Turn) {
    var s1 := Corrected(s, t.back);
    var s2, s3 := Dispatched(s1, t), Waited(s, t);
    || ((if t.res == -1 then t.eintr else t.evsignal_caught) && exists x | x in s1.evs :: DeletedFor(s1, x, t.evsigcaught, 1) && Stale(s1, x))
    || (exists x | x in t.order :: Stale(s2, x))
    || (Inv(s3) && FirstQueue(s3.active) < |s3.active| && LogDeletesStale(StaleSet(s3), Processed(s3, t.script).log))
  }

  lemma DispatchedWild(s: State, t: Turn)
    requires Inv(s) && |t.evsigcaught| == NSIG && !s.cell.running
    ensures Dispatched(s, t).cell == s.cell.(wild := s.cell.wild ||
              ((if t.res == -1 then t.eintr else t.evsignal_caught) &&
               exists x | x in s.evs :: DeletedFor(s, x, t.evsigcaught, 1) && Stale(s, x)))
  {
    hide Inv, DeletedFor, Stale, RaiseFrom, ReportAll;
    RaiseFromWild(s, t.evsigcaught, 1);
    ReportAllCell(s, t.events);
    ReportAllCell(RaiseFrom(s, t.evsigcaught, 1), t.events);
  }

  /** A turn writes through a dangling ev_pncalls exactly if it deletes a stale event. */
  lemma WildInTurn(s: State, t: Turn)
    requires Inv(s) && Lawful(s, t) && !s.cell.running
    ensures !Turned(s, t).cell.running && (Turned(s, t).cell.wild <==> s.cell.wild || TurnDeletesStale(s, t))
  {
    hide Inv, Dispatched, Serves, ExpireAll, Stale, DeletedFor, LogDeletesStale, Pass, AllExpired, FirstQueue;
    var s1 := Corrected(s, t.back);
    CorrectedInv(s, t.back);
    CorrectedBroken(s, t.back);
    DispatchedInv(s1, t);
    DispatchedWild(s1, t);
    var s2 := Dispatched(s1, t);
    TimeoutProcessExact(s2, t.now, t.order);
    DueKnown(s2);
    InHeapIff(s2);
    ExpireAllWild(s2, t.order);
    var s3 := Waited(s, t);
    if FirstQueue(s3.active) < |s3.active| {
      WildInPass(s3, t.script);
    }
  }

  ghost predicate HappeningDeletesStale(s: State, h: Happening) {
    match h
    case Loop(t) => TurnDeletesStale(s, t)
    case Leave => false
    case Program(ops) => DeletesStale(StaleSet(s), ops)
  }

  ghost predicate LifeDeletesStale(s: State, hs: seq<Happening>)
    decreases |hs|
  {
    hs != [] && (HappeningDeletesStale(s, hs[0]) || LifeDeletesStale(Happened(s, hs[0]), hs[1..]))
  }

  lemma HappenedWild(s: State, h: Happening)
    requires Inv(s) && MayHappen(s, h) && !s.cell.running
    ensures !Happened(s, h).cell.running && (Happened(s, h).cell.wild <==> s.cell.wild || HappeningDeletesStale(s, h))
  {
    hide Inv, Lawful, Turned, TurnDeletesStale, Run, Obeys, SomeStops, SomeWild, DeletesStale, StaleSet;
    match h {
      case Loop(t) => WildInTurn(s, t);
      case Leave =>
      case Program(ops) => RunCell(s, ops); WildInProgram(s, ops);
    }
  }

  /** Over the life of a base every write through an ev_pncalls goes to the counter of a
      running pass if and only if no stale event is ever deleted. */
  lemma {:induction false} LifeWild(s: State, hs: seq<Happening>)
    requires Inv(s) && AllLawful(s, hs) && !s.cell.running
    ensures After(s, hs).cell.wild <==> s.cell.wild || LifeDeletesStale(s, hs)
    decreases |hs|
  {
    hide Inv, MayHappen, Happened, HappeningDeletesStale;
    if hs != [] {
      HappenedInv(s, hs[0]);
      HappenedWild(s, hs[0]);
      LifeWild(Happened(s, hs[0]), hs[1..]);
    }
  }

  // ----- the turn on a real base -----

  /** epoll_dispatch with the answer `res` of epoll_wait. */
  method EpollDispatch(base: EventBase, res: int, eintr: bool, evsignal_caught: bool, evsigcaught: array<nat>,
                       events: array<EpollEvent>, ghost t: Turn) returns (r: int)
    requires base.Valid() && Inv(base.view) && base in base.Repr && -1 <= res <= events.Length
    requires evsigcaught.Length == NSIG && evsigcaught !in base.Repr && events !in base.Repr
    requires t.res == res && t.eintr == eintr && t.evsignal_caught == evsignal_caught && t.evsigcaught == evsigcaught[..]
    requires res >= 0 ==> t.events == events[..res]
    modifies base, base.Repr, evsigcaught
    ensures base.Valid() && base.Repr == old(base.Repr) && Inv(base.view)
    ensures base.view == Dispatched(old(base.view), t) && r == if res == -1 && !eintr then -1 else 0
    ensures Answered(old(base.view), base.view, if (if res == -1 then eintr else evsignal_caught) then old(evsigcaught[..]) else [],
                     if res == -1 then [] else events[..res])
    ensures var heeded := if res == -1 then eintr else evsignal_caught;
            forall i | 0 <= i < NSIG :: evsigcaught[i] == if heeded && i > 0 then 0 else old(evsigcaught[i])
  {
    hide EventBase.Valid, Inv, RaiseFrom, ReportAll, Answered;
    DispatchAnswers(base.view, t);
    if res == -1 {
      if !eintr {
        return -1;
      }
      ProcessSignals(base, evsigcaught);
      return 0;
    } else if evsignal_caught {
      ProcessSignals(base, evsigcaught);
    }
    ActivateReady(base, events, res);
    return 0;
  }

  /** What the arguments of one turn come to; only the order of the timers is open. */
  ghost function TurnOf(back: Option<Timeval>, res: int, eintr: bool, evsignal_caught: bool, evsigcaught: seq<nat>,
                        events: seq<EpollEvent>, now: Timeval, order: seq<Event>, script: seq<seq<Op>>): Turn {
    Turn(back, res, eintr, evsignal_caught, evsigcaught, if 0 <= res <= |events| then events[..res] else [], now, order, script)
  }

  /** The world's side of a turn in which timeout_process meets `order`. */
  ghost predicate Plays(s: State, t: Turn, order: seq<Event>) {
    (forall e | e in order :: e in s.evs) && Serves(Dispatched(Corrected(s, t.back), t), t.now, order) ==>
      Covered(Waited(s, t.(order := order)), t.script)
  }

  /** A sequence of events a base knew before was there before. */
  twostate lemma Older(s: State, new order: seq<Event>)
    requires forall e | e in order :: e in s.evs
    ensures old(allocated(order))
  {
    assert old(allocated(s.evs.Keys));
    assert forall e | e in order :: e in s.evs.Keys;
    assert forall e | e in order :: old(allocated(e));
    assert forall i | 0 <= i < |order| :: order[i] in order;
    assert forall i | 0 <= i < |order| :: old(allocated(order[i]));
  }

  lemma Idle(s: State, t: Turn, order: seq<Event>)
    requires exists e :: e in order && e !in s.evs
    ensures Plays(s, t, order)
  {
  }

  /** The turn from epoll_dispatch on. */
  method DispatchAndProcess(base: EventBase, res: int, eintr: bool, evsignal_caught: bool, evsigcaught: array<nat>,
                            events: array<EpollEvent>, now: Timeval, script: seq<seq<Op>>, ghost all: set<Op>, ghost t0: Turn)
    returns (code: int, ghost t: Turn)
    requires base.Valid() && Inv(base.view) && base in base.Repr && Ready(base, all) && -1 <= res <= events.Length
    requires evsigcaught.Length == NSIG && evsigcaught !in base.Repr && events !in base.Repr
    requires Covers(all, script)
    requires t0 == TurnOf(None, res, eintr, evsignal_caught, evsigcaught[..], events[..], now, [], script)
    requires forall order :: Plays(base.view, t0, order)
    requires !base.view.broken
    modifies base, base.Repr, Outside(all), evsigcaught
    ensures base.Valid() && Inv(base.view) && code == (if res == -1 && !eintr then -1 else 0)
    ensures code == 0 ==> t == t0.(order := t.order) && Lawful(old(base.view), t) && base.view == Turned(old(base.view), t)
    ensures code == -1 ==> base.view == old(base.view)
  {
    hide EventBase.Valid, Inv, Ready, Outside, Pass, Serves, ExpireAll, Dispatched, Plays, AllExpired;
    t := t0;
    ghost var s := base.view;
    DispatchedInv(s, t0);
    code := EpollDispatch(base, res, eintr, evsignal_caught, evsigcaught, events, t0);
    if code == -1 {
      FailsIdle(s, t0);
      return;
    }
    ghost var order := TimeoutProcess(base, now);
    t := t0.(order := order);
    ExpireKeys(Dispatched(old(base.view), t0), now, order);
    ReadyStays(base, all);
    SameDispatch(old(base.view), t0, order);
    Older(s, order);
    assert Plays(s, t0, order);
    Played(s, t0, order);
    base.PipeKnown();
    base.FieldsKnown(base.ev_signal);
    CountedActive(base.view);
    if base.event_count_active != 0 {
      ghost var o := ProcessActive(base, script, all);
    }
  }

  lemma FailsIdle(s: State, t: Turn)
    requires t.res == -1 && !t.eintr
    ensures Dispatched(s, t) == s
  {
  }

  lemma ExpireKeys(s: State, now: Timeval, order: seq<Event>)
    requires Inv(s) && Serves(s, now, order)
    ensures ExpireAll(s, order).evs.Keys == s.evs.Keys && forall e | e in order :: e in s.evs
  {
    hide Inv, Serves, ExpireAll;
    TimeoutProcessExact(s, now, order);
    DueKnown(s);
  }

  lemma SameDispatch(s: State, t: Turn, order: seq<Event>)
    ensures Dispatched(s, t.(order := order)) == Dispatched(s, t)
    ensures t.back.None? ==> Waited(s, t.(order := order)) == ExpireAll(Dispatched(s, t), order)
  {
  }

  lemma Played(s: State, t: Turn, order: seq<Event>)
    requires Plays(s, t, order) && (forall e | e in order :: e in s.evs) && Serves(Dispatched(Corrected(s, t.back), t), t.now, order)
    ensures Covered(Waited(s, t.(order := order)), t.script)
  {
  }

  /** One turn of event_base_loop, when event_gotterm is not set.  With a result of 0 the loop
      goes on; 2 says that a callback has broken it, 1 that there is nothing to wait for, -1
      that epoll_wait failed.  `tv` and `next` are the clock as timeout_correct and
      timeout_next read it, `wait` is what epoll_wait was asked to wait, in milliseconds. */
  method Iterate(base: EventBase, nonblock: bool, use_monotonic: bool, tv: Timeval, event_tv: Timeval, next: Timeval,
                 res: int, eintr: bool, evsignal_caught: bool, evsigcaught: array<nat>, events: array<EpollEvent>,
                 now: Timeval, script: seq<seq<Op>>, ghost all: set<Op>, ghost t0: Turn)
    returns (code: int, wait: int, ghost t: Turn)
    requires base.Valid() && Inv(base.view) && base in base.Repr && Ready(base, all) && -1 <= res <= events.Length
    requires evsigcaught.Length == NSIG && evsigcaught !in base.Repr && events !in base.Repr
    requires NormalTimers(base.view) && Normal(tv) && Normal(event_tv) && Normal(next)
    requires Covers(all, script)
    requires t0 == TurnOf(Back(use_monotonic, tv, event_tv), res, eintr, evsignal_caught, evsigcaught[..], events[..], now, [], script)
    requires forall order :: Plays(base.view, t0, order)
    modifies base, base.Repr, Outside(all), evsigcaught
    ensures base.Valid() && Inv(base.view) && (code == 2 <==> old(base.event_break))
    ensures code == 2 ==> base.view == old(base.view).(broken := false)
    ensures var s := Corrected(old(base.view), t0.back);
            code != 2 ==>
            && (code == 1 <==> s.count <= 0) && (code == 1 || code == -1 ==> base.view == s)
            && (code != 1 ==> code == if res == -1 && !eintr then -1 else 0)
            && (if s.countActive != 0 || nonblock then wait == 0 else exists d :: NextWait(s, next, d) && wait == EpollTimeout(d))
            && (s.countActive == 0 && !nonblock ==> WaitIs(s, next, wait))
    ensures code == 0 ==> t == t0.(order := t.order) && Lawful(old(base.view), t) && base.view == Turned(old(base.view), t)
  {
    hide EventBase.Valid, Inv, Ready, Outside, Shift, Pass, Serves, ExpireAll, Dispatched, NextWait, Lawful, Turned, Plays, WaitIs;
    t := t0;
    base.PipeKnown();
    base.FieldsKnown(base.ev_signal);
    if base.event_break {
      LeaveInv(base.view);
      base.ClearBreak();
      return 2, 0, t;
    }
    CorrectedBroken(base.view, t0.back);
    CorrectedTurn(base.view, t0);
    ghost var s1, t1 := Corrected(base.view, t0.back), t0.(back := None);
    wait := Waiting(base, nonblock, use_monotonic, tv, event_tv, next);
    CorrectedKeys(old(base.view), t0.back);
    ReadyStays(base, all);
    CountKnown(base);
    if base.event_count <= 0 {
      return 1, wait, t;
    }
    forall order ensures Plays(s1, t1, order) {
      if forall e | e in order :: e in s1.evs {
        Older(old(base.view), order);
        assert Plays(s1, t1, order);
      } else {
        Idle(s1, t1, order);
      }
    }
    code, t := DispatchAndProcess(base, res, eintr, evsignal_caught, evsigcaught, events, now, script, all, t0.(back := None));
    t := t.(back := t0.back);
    CorrectedTurned(old(base.view), t);
  }

  function Back(use_monotonic: bool, tv: Timeval, event_tv: Timeval): Option<Timeval> {
    if !use_monotonic && Later(event_tv, tv) then Some(TimerSub(event_tv, tv)) else None
  }

  /** A clock that has been set back takes every pending deadline with it, by the same
      microseconds; otherwise nothing moves. */
  lemma CorrectedMoves(s: State, use_monotonic: bool, tv: Timeval, event_tv: Timeval, e: Event)
    requires Inv(s) && NormalTimers(s) && Normal(tv) && Normal(event_tv) && e in s.evs
    ensures var s1 := Corrected(s, Back(use_monotonic, tv, event_tv));
            && s1 == s.(evs := s1.evs) && s1.evs.Keys == s.evs.Keys && s1.evs[e].(timeout := s.evs[e].timeout) == s.evs[e]
            && if !use_monotonic && Micros(tv) < Micros(event_tv) && e in s.heap
               then Normal(s1.evs[e].timeout)
                    && Micros(s1.evs[e].timeout) - Micros(tv) == Micros(s.evs[e].timeout) - Micros(event_tv)
               else s1.evs[e].timeout == s.evs[e].timeout
  {
    TimevalIsMicros(event_tv, tv);
    if !use_monotonic && Later(event_tv, tv) && e in s.heap {
      TimevalIsMicros(s.evs[e].timeout, TimerSub(event_tv, tv));
    }
  }

  lemma CorrectedBroken(s: State, back: Option<Timeval>)
    ensures Corrected(s, back).broken == s.broken && Corrected(s, back).cell == s.cell
  {
  }

  lemma CorrectedKeys(s: State, back: Option<Timeval>)
    ensures Corrected(s, back).evs.Keys == s.evs.Keys
  {
  }

  lemma CorrectedTurn(s: State, t: Turn)
    requires forall order :: Plays(s, t, order)
    ensures forall order :: Plays(Corrected(s, t.back), t.(back := None), order)
  {
    var s1, t1 := Corrected(s, t.back), t.(back := None);
    CorrectedKeys(s, t.back);
    assert Dispatched(s1, t1) == Dispatched(s1, t);
    forall order ensures Plays(s1, t1, order) {
      assert Plays(s, t, order);
      assert Dispatched(s1, t1.(order := order)) == Dispatched(s1, t.(order := order));
      assert Waited(s1, t1.(order := order)) == Waited(s, t.(order := order));
    }
  }

  lemma CorrectedTurned(s: State, t: Turn)
    ensures Turned(Corrected(s, t.back), t.(back := None)) == Turned(s, t)
    ensures Lawful(Corrected(s, t.back), t.(back := None)) == Lawful(s, t)
  {
    hide Pass, Inv, Serves, ExpireAll, Shift, RaiseFrom, ReportAll;
    var s1, t1 := Corrected(s, t.back), t.(back := None);
    CorrectedBroken(s, t.back);
    assert Dispatched(s1, t1) == Dispatched(s1, t);
    assert Waited(s1, t1) == Waited(s, t);
  }

  /** timeout_correct, and how long to wait. */
  method Waiting(base: EventBase, nonblock: bool, use_monotonic: bool, tv: Timeval, event_tv: Timeval, next: Timeval) returns (wait: int)
    requires base.Valid() && Inv(base.view) && base in base.Repr && NormalTimers(base.view)
    requires Normal(tv) && Normal(event_tv) && Normal(next)
    modifies base, base.Repr
    ensures base.Valid() && Inv(base.view) && base.Repr == old(base.Repr)
    ensures base.view == Corrected(old(base.view), Back(use_monotonic, tv, event_tv))
    ensures if base.view.countActive != 0 || nonblock then wait == 0 else exists d :: NextWait(base.view, next, d) && wait == EpollTimeout(d)
    ensures base.view.countActive == 0 && !nonblock ==> WaitIs(base.view, next, wait)
  {
    hide EventBase.Valid, Inv, Shift, NextWait, WaitIs;
    ghost var s := base.view;
    var event_tv' := TimeoutCorrect(base, use_monotonic, tv, event_tv);
    base.PipeKnown();
    base.FieldsKnown(base.ev_signal);
    if base.event_count_active != 0 || nonblock {
      return 0;
    }
    CorrectedNormal(s, tv, event_tv, use_monotonic);
    var d := TimeoutNext(base, next);
    wait := EpollTimeout(d);
    WaitExactly(base.view, next, d);
  }

  lemma CountKnown(base: EventBase)
    requires base.Valid()
    ensures base.event_count == base.view.count
  {
  }

  lemma CorrectedNormal(s: State, tv: Timeval, event_tv: Timeval, use_monotonic: bool)
    requires Inv(s) && NormalTimers(s) && Normal(tv) && Normal(event_tv)
    ensures NormalTimers(if !use_monotonic && Later(event_tv, tv) then Shift(s, TimerSub(event_tv, tv)) else s)
  {
    hide Inv, Shift;
    if !use_monotonic && Later(event_tv, tv) && s.heap != {} {
      var e :| e in s.heap;
      DeadlinesKept(s, tv, event_tv, e);
    } else if !use_monotonic && Later(event_tv, tv) {
      ShiftRest(s, TimerSub(event_tv, tv));
    }
  }
}