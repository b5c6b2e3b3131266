/** What the library leaves of the actions that signals had before it took them over. */
module SignalActions {
  import opened Seqs
  import opened Timevals
  import opened Events
  import opened Epoll
  import opened BaseState
  import opened BaseInv
  import opened BaseEffects
  import opened BaseRuns
  import opened Timeouts
  import opened ActivePass
  import opened Dispatch
  import opened Reinit
  import opened Clock
  import opened EventLoop

  /** An event_add that has installed the handler of signal `sig`, for its first event, when
      the nested event_add for the self-pipe is refused: evsignal_add returns -1, and the
      handler stays. */
  ghost predicate Refuses(s: State, op: Op, sig: int) {
    && op.EventAdd? && op.e in s.evs && Signal in s.evs[op.e].events && s.evs[op.e].fd == sig
    && RoomFor(s, s.evs[op.e], op.tv, op.env)
    && NewPipe(s, s.evs[op.e]) && op.env.sigact && !PipeAccepted(s, op.env)
  }

  ghost predicate RefusedIn(s: State, ops: seq<Op>, sig: int)
    decreases |ops|
  {
    ops != [] && (Refuses(s, ops[0], sig) || RefusedIn(Step(s, ops[0]), ops[1..], sig))
  }

  /** Signal `sig` does what it did originally, or its handler is installed for the events on
      its list and the original action is saved. */
  ghost predicate Borrowed(s: State, sig: int, original: Action) {
    if ListAt(s.sigs, sig) == [] then ActionOf(s.handlers, sig) == original && sig !in s.handlers.saved
    else ActionOf(s.handlers, sig) == Ours && sig in s.handlers.saved && s.handlers.saved[sig] == original
  }

  /** The handler is installed, and what is saved for the events on the list, if there are
      any, is the handler itself. */
  ghost predicate Kept(s: State, sig: int) {
    && ActionOf(s.handlers, sig) == Ours
    && (ListAt(s.sigs, sig) != [] ==> sig in s.handlers.saved && s.handlers.saved[sig] == Ours)
  }

  /** From `s` to `s'` the original action stays in force or saved, or is lost for good by a
      refusal on the way. */
  ghost predicate Becomes(s: State, s': State, sig: int, original: Action, refused: bool) {
    && (Borrowed(s, sig, original) ==> if refused then Kept(s', sig) else Borrowed(s', sig, original))
    && (Kept(s, sig) ==> Kept(s', sig))
  }

  lemma Same(s: State, s': State, sig: int, original: Action)
    requires s'.sigs == s.sigs && s'.handlers == s.handlers
    ensures Becomes(s, s', sig, original, false)
  {
  }

  lemma AddActions(s: State, e: Event, tv: Option<Timeval>, env: Env, sig: int, original: Action)
    requires Inv(s) && AddOk(s, e) && 0 <= sig < NSIG
    ensures Becomes(s, Add(s, e, tv, env).0, sig, original, Refuses(s, EventAdd(e, tv, env), sig))
  {
    hide Core, Slots, Agree, SelfPipe, Add, PollAdd, RoomFor, PipeAccepted, Wants, Off, FreeFor, Timed, Joined;
    if Signal in s.evs[e].events {
      SignalAddEffect(s, e, tv, env);
      ShapeOf(s, e);
    } else {
      AddEffect(s, e, tv, env);
    }
  }

  lemma DelActions(s: State, e: Event, sig: int, original: Action)
    requires Inv(s) && e in s.evs && e != s.sigEvent && 0 <= sig < NSIG
    ensures Becomes(s, Del(s, e).0, sig, original, false)
  {
    hide Core, Slots, Agree, SelfPipe, Del, PollDel, Without;
    DelBackend(s, e);
    if Inserted in s.evs[e].flags && Signal in s.evs[e].events {
      ShapeOf(s, e);
      assert e in ListAt(s.sigs, s.evs[e].fd);
    }
  }

  lemma StepActions(s: State, op: Op, sig: int, original: Action)
    requires Inv(s) && Permitted(s, op) && 0 <= sig < NSIG
    ensures Becomes(s, Step(s, op), sig, original, Refuses(s, op, sig))
  {
    hide Inv, Add, Del, Refuses;
    match op {
      case EventAdd(e, tv, env) => AddActions(s, e, tv, env, sig, original);
      case EventDel(e) => DelActions(s, e, sig, original); NotAdd(s, op, sig);
      case _ => NotAdd(s, op, sig);
    }
  }

  lemma NotAdd(s: State, op: Op, sig: int)
    requires !op.EventAdd?
    ensures !Refuses(s, op, sig)
  {
  }

  lemma {:induction false} RunActions(s: State, ops: seq<Op>, sig: int, original: Action)
    requires Inv(s) && Obeys(s, ops) && 0 <= sig < NSIG
    ensures Becomes(s, Run(s, ops), sig, original, RefusedIn(s, ops, sig))
    decreases |ops|
  {
    hide Inv, Step, Permitted, Borrowed, Kept, Refuses;
    if ops != [] {
      StepActions(s, ops[0], sig, original);
      StepInv(s, ops[0]);
      RunActions(Step(s, ops[0]), ops[1..], sig, original);
    }
  }

  // ----- what the loop does -----

  lemma ExpireActions(s: State, e: Event, sig: int, original: Action)
    requires Inv(s) && e in s.evs && e != s.sigEvent && 0 <= sig < NSIG
    ensures Becomes(s, Expire(s, e), sig, original, false)
  {
    hide Inv, Del;
    DelActions(s, e, sig, original);
  }

  lemma {:induction false} ExpireAllActions(s: State, order: seq<Event>, sig: int, original: Action)
    requires Inv(s) && 0 <= sig < NSIG && forall x | x in order :: x in s.evs && x != s.sigEvent
    ensures Becomes(s, ExpireAll(s, order), sig, original, false)
    decreases |order|
  {
    hide Inv, Expire, Expired, Borrowed, Kept;
    if order != [] {
      ExpireActions(s, order[0], sig, original);
      ExpireInv(s, order[0]);
      CoreOf(s);
      ExpireEffect(s, order[0]);
      ExpireAllActions(Expire(s, order[0]), order[1..], sig, original);
    }
  }

  lemma RaiseActions(s: State, e: Event, n: nat, sig: int, original: Action)
    requires Inv(s) && e in s.evs && e != s.sigEvent && 0 <= sig < NSIG
    ensures Becomes(s, Raise(s, e, n), sig, original, false)
  {
    hide Inv, Del;
    DelActions(s, e, sig, original);
  }

  lemma {:induction false} RaiseAllActions(s: State, list: seq<Event>, n: nat, caught: nat, sig: int, original: Action)
    requires Inv(s) && Listening(s, list, caught) && 0 <= sig < NSIG
    ensures Becomes(s, RaiseAll(s, list, n), sig, original, false)
    decreases |list|
  {
    hide Inv, Raise, Raised, Borrowed, Kept;
    if list != [] {
      var e, rest, s1 := list[0], list[1..], Raise(s, list[0], n);
      assert [e] + rest == list && e in list;
      RaiseActions(s, e, n, sig, original);
      RaiseEffect(s, e, n);
      ListeningRest(s, s1, e, rest, caught);
      RaiseAllActions(s1, rest, n, caught, sig, original);
    }
  }

  lemma {:induction false} RaiseFromActions(s: State, caught: seq<nat>, from: nat, sig: int, original: Action)
    requires Inv(s) && |caught| == NSIG && from <= NSIG && 0 <= sig < NSIG
    ensures Becomes(s, RaiseFrom(s, caught, from), sig, original, false)
    decreases NSIG - from
  {
    hide Inv, Raised, Borrowed, Kept, RaiseAll, Listening;
    if from < NSIG {
      WholeListening(s, from);
      RaiseOneEffect(s, from, caught[from]);
      if caught[from] != 0 { RaiseAllActions(s, s.sigs[from], caught[from], from, sig, original); }
      RaiseFromActions(RaiseOne(s, from, caught[from]), caught, from + 1, sig, original);
    }
  }

  lemma {:induction false} ReportAllSame(s: State, rs: seq<EpollEvent>)
    ensures ReportAll(s, rs).sigs == s.sigs && ReportAll(s, rs).handlers == s.handlers
    decreases |rs|
  {
    if rs != [] {
      ReportAllSame(Report(s, rs[0]), rs[1..]);
    }
  }

  lemma WaitedActions(s: State, t: Turn, sig: int, original: Action)
    requires Inv(s) && Lawful(s, t) && 0 <= sig < NSIG
    ensures Becomes(s, Waited(s, t), sig, original, false)
  {
    hide Inv, Serves, ExpireAll, RaiseFrom, ReportAll, Covered, AllExpired, Borrowed, Kept, Dispatched, ServedInOrder;
    var s1 := Corrected(s, t.back);
    Same(s, s1, sig, original);
    CorrectedInv(s, t.back);
    DispatchedActions(s1, t, sig, original);
    DispatchedInv(s1, t);
    var s2 := Dispatched(s1, t);
    TimeoutProcessExact(s2, t.now, t.order);
    OrderKnown(s2, t.now, t.order);
    ExpireAllActions(s2, t.order, sig, original);
  }

  lemma OrderKnown(s: State, now: Timeval, order: seq<Event>)
    requires Inv(s) && ServedInOrder(s, now, order)
    ensures forall x | x in order :: x in s.evs && x != s.sigEvent
  {
    hide Inv;
    DueKnown(s);
  }

  lemma DispatchedActions(s: State, t: Turn, sig: int, original: Action)
    requires Inv(s) && |t.evsigcaught| == NSIG && 0 <= sig < NSIG
    ensures Becomes(s, Dispatched(s, t), sig, original, false)
  {
    hide Inv, RaiseFrom, ReportAll;
    RaiseFromActions(s, t.evsigcaught, 1, sig, original);
    ReportAllSame(s, t.events);
    ReportAllSame(RaiseFrom(s, t.evsigcaught, 1), t.events);
  }

  // ----- what callbacks do -----

  ghost predicate RefusedInCalls(s: State, e: Event, script: seq<seq<Op>>, sig: int)
    decreases |script|
  {
    && s.cell.n != 0 && script != []
    && var s1 := Calling(s, e);
       Obeys(s1, script[0])
       && (RefusedIn(s1, script[0], sig)
           || (!Run(s1, script[0]).broken && RefusedInCalls(Run(s1, script[0]), e, script[1..], sig)))
  }

  lemma {:induction false} CallsActions(s: State, e: Event, script: seq<seq<Op>>, sig: int, original: Action)
    requires Inv(s) && e in s.evs && 0 <= s.cell.n < 0x1_0000 && 0 <= sig < NSIG
    ensures Becomes(s, Calls(s, e, script).s, sig, original, RefusedInCalls(s, e, script, sig))
    decreases |script|
  {
    hide Inv, Obeys, Run, RefusedIn, Borrowed, Kept;
    if s.cell.n != 0 && script != [] {
      var s1 := Calling(s, e);
      Same(s, s1, sig, original);
      CallingInv(s, e);
      CallingCell(s, e);
      if Obeys(s1, script[0]) {
        RunActions(s1, script[0], sig, original);
        RunInv(s1, script[0]);
        RunKeeps(s1, script[0]);
        RunCell(s1, script[0]);
        CallsActions(Run(s1, script[0]), e, script[1..], sig, original);
      }
    } else {
      Same(s, s, sig, original);
    }
  }

  lemma ServeActions(s: State, q: nat, sig: int, original: Action)
    requires Inv(s) && q < |s.active| && s.active[q] != [] && 0 <= sig < NSIG
    ensures Becomes(s, Serve(s, s.active[q][0]), sig, original, false)
  {
    hide Inv, Del;
    var e := s.active[q][0];
    ServeInv(s, q);
    if Persist !in s.evs[e].events {
      SelfPipePersists(s);
      DelActions(s, e, sig, original);
    }
  }

  ghost predicate RefusedInPass(s: State, q: nat, script: seq<seq<Op>>, sig: int)
    requires Inv(s) && q < |s.active|
    decreases |script|, |ListAt(s.active, q)|
  {
    if s.active[q] == [] then false
    else
      var e := s.active[q][0];
      ServeInv(s, q);
      CallsInv(Serve(s, e), e, script);
      CallsNone(Serve(s, e), e, script);
      var o := Calls(Serve(s, e), e, script);
      RefusedInCalls(Serve(s, e), e, script, sig) || (o.stop == Done && RefusedInPass(o.s, q, o.rest, sig))
  }

  lemma {:induction false} PassActions(s: State, q: nat, script: seq<seq<Op>>, sig: int, original: Action)
    requires Inv(s) && q < |s.active| && 0 <= sig < NSIG
    ensures Becomes(s, Pass(s, q, script).s, sig, original, RefusedInPass(s, q, script, sig))
    decreases |script|, |ListAt(s.active, q)|
  {
    hide Inv, Calls, Serve, RefusedInCalls, Borrowed, Kept;
    if s.active[q] == [] {
      Same(s, s, sig, original);
    } else {
      var e := s.active[q][0];
      ServeInv(s, q);
      ServeActions(s, q, sig, original);
      CallsInv(Serve(s, e), e, script);
      CallsNone(Serve(s, e), e, script);
      CallsActions(Serve(s, e), e, script, sig, original);
      var o := Calls(Serve(s, e), e, script);
      if o.stop == Done {
        PassActions(o.s, q, o.rest, sig, original);
      }
    }
  }

  // ----- the life of a base -----

  ghost predicate RefusedInHappening(s: State, h: Happening, sig: int) {
    match h
    case Loop(t) =>
      var s3 := Waited(s, t);
      Inv(s3) && FirstQueue(s3.active) < |s3.active| && (BegunInv(s3); RefusedInPass(Begun(s3), FirstQueue(s3.active), t.script, sig))
    case Leave => false
    case Program(ops) => RefusedIn(s, ops, sig)
  }

  /** Whether an event_add was ever refused after it had installed the handler of `sig`. */
  ghost predicate RefusedInLife(s: State, hs: seq<Happening>, sig: int)
    decreases |hs|
  {
    hs != [] && (RefusedInHappening(s, hs[0], sig) || RefusedInLife(Happened(s, hs[0]), hs[1..], sig))
  }

  lemma TurnActions(s: State, t: Turn, sig: int, original: Action)
    requires Inv(s) && Lawful(s, t) && 0 <= sig < NSIG
    ensures Becomes(s, Turned(s, t), sig, original, RefusedInHappening(s, Loop(t), sig))
  {
    hide Inv, Waited, Lawful, Pass, RefusedInPass, Borrowed, Kept, FirstQueue;
    WaitedActions(s, t, sig, original);
    var s3 := Waited(s, t);
    if Inv(s3) && FirstQueue(s3.active) < |s3.active| {
      BegunInv(s3);
      var q, o := FirstQueue(s3.active), Pass(Begun(s3), FirstQueue(s3.active), t.script);
      Same(s3, Begun(s3), sig, original);
      PassActions(Begun(s3), q, t.script, sig, original);
      Same(o.s, Ended(o.s), sig, original);
    }
  }

  lemma {:induction false} LifeActions(s: State, hs: seq<Happening>, sig: int, original: Action)
    requires Inv(s) && AllLawful(s, hs) && 0 <= sig < NSIG
    ensures Becomes(s, After(s, hs), sig, original, RefusedInLife(s, hs, sig))
    decreases |hs|
  {
    hide Inv, Lawful, Obeys, Turned, Run, RefusedInPass, RefusedIn, Borrowed, Kept;
    if hs == [] {
      Same(s, s, sig, original);
    } else {
      HappenedInv(s, hs[0]);
      HappenedActions(s, hs[0], sig, original);
      LifeActions(Happened(s, hs[0]), hs[1..], sig, original);
    }
  }

  lemma HappenedActions(s: State, h: Happening, sig: int, original: Action)
    requires Inv(s) && MayHappen(s, h) && 0 <= sig < NSIG
    ensures Becomes(s, Happened(s, h), sig, original, RefusedInHappening(s, h, sig))
  {
    hide Inv, Lawful, Obeys, Turned, Run, RefusedIn, Borrowed, Kept;
    match h {
      case Loop(t) => TurnActions(s, t, sig, original);
      case Leave => Same(s, s.(broken := false), sig, original);
      case Program(ops) => RunActions(s, ops, sig, original);
    }
  }

  /** Over the life of a base, from its creation: a signal none of whose events is inserted
      does what it did originally if and only if no event_add was refused after it had
      installed the handler.  Once that has happened the original action never comes back. */
  lemma OriginalActionReturns(sigEvent: Event, pipe: nat, pri: nat, npriorities: nat, nfds: nat, actions: map<int, Action>,
                              hs: seq<Happening>, sig: int)
    requires pri < npriorities && nfds > 0 && 0 <= sig < NSIG
    requires AllLawful(Fresh(sigEvent, pipe, pri, npriorities, nfds, actions), hs)
    requires ActionOf(Handlers(map[], actions), sig) != Ours
    ensures var s0, original := Fresh(sigEvent, pipe, pri, npriorities, nfds, actions), ActionOf(Handlers(map[], actions), sig);
            var s := After(s0, hs);
            && (RefusedInLife(s0, hs, sig) ==> ActionOf(s.handlers, sig) == Ours)
            && (ListAt(s.sigs, sig) == [] ==> (ActionOf(s.handlers, sig) == original <==> !RefusedInLife(s0, hs, sig)))
  {
    hide Inv, AllLawful, After, RefusedInLife;
    FreshInv(sigEvent, pipe, pri, npriorities, nfds, actions);
    LifeActions(Fresh(sigEvent, pipe, pri, npriorities, nfds, actions), hs, sig, ActionOf(Handlers(map[], actions), sig));
  }

  // ----- event_reinit -----

  lemma SelAddBorrows(s: State, e: Event, env: Env, sig: int, original: Action)
    requires Borrowed(s, sig, original) && SelAdd(s, e, env).1 && 0 <= sig < NSIG == |s.sigs|
    ensures Borrowed(SelAdd(s, e, env).0, sig, original) && |SelAdd(s, e, env).0.sigs| == NSIG
  {
    hide PollAdd, Wants;
  }

  lemma {:induction false} ReaddBorrows(s: State, k: nat, envs: nat -> Env, sig: int, original: Action)
    requires Borrowed(s, sig, original) && Readd(s, k, envs).1 == 0 && 0 <= sig < NSIG == |s.sigs|
    ensures Borrowed(Readd(s, k, envs).0, sig, original)
    decreases |s.inserted| - k + (if s.sigAdded then 0 else 1)
  {
    hide SelAdd, Borrowed;
    if k < |s.inserted| {
      SelAddGrows(s, s.inserted[k], envs(k));
      ReaddResult(SelAdd(s, s.inserted[k], envs(k)).0, k + 1, envs);
      SelAddBorrows(s, s.inserted[k], envs(k), sig, original);
      ReaddBorrows(SelAdd(s, s.inserted[k], envs(k)).0, k + 1, envs, sig, original);
    }
  }

  /** event_reinit puts every action back and, when it succeeds, takes over again exactly the
      signals that have events, with the original actions saved. */
  lemma ReinitBorrows(s: State, pipeEvent: Event, pipe: nat, pri: nat, nfds: nat, envs: nat -> Env, sig: int, original: Action)
    requires Inv(s) && Borrowed(s, sig, original) && 0 <= sig < NSIG
    requires EventReinit(s, pipeEvent, pipe, pri, nfds, envs).1 == 0
    ensures Borrowed(EventReinit(s, pipeEvent, pipe, pri, nfds, envs).0, sig, original)
  {
    hide Inv, Readd;
    RenewedBorrows(s, pipeEvent, pipe, pri, nfds, sig, original);
    ReaddBorrows(Renewed(s, pipeEvent, pipe, pri, nfds), 0, envs, sig, original);
  }

  lemma RenewedBorrows(s: State, pipeEvent: Event, pipe: nat, pri: nat, nfds: nat, sig: int, original: Action)
    requires Borrowed(s, sig, original) && 0 <= sig < NSIG
    ensures var r := Renewed(s, pipeEvent, pipe, pri, nfds); Borrowed(r, sig, original) && |r.sigs| == NSIG
  {
    hide Without;
  }

  /** A run in which it does not come back: the first event of a signal is added twice, the
      first time when the kernel refuses the self-pipe, and then deleted. */
  lemma ActionLost(sigEvent: Event, pipe: nat, pri: nat, npriorities: nat, nfds: nat, actions: map<int, Action>,
                   e: Event, sig: int, refused: Env, granted: Env)
    requires pri < npriorities && nfds > pipe && e != sigEvent && 0 <= sig < NSIG
    requires refused.sigact && !refused.ctl && granted.sigact && granted.ctl
    ensures var s := Fresh(sigEvent, pipe, pri, npriorities, nfds, actions);
            var ops := [Attach(e, sig, {Signal}), EventAdd(e, None, refused), EventAdd(e, None, granted), EventDel(e)];
            && Obeys(s, ops) && RefusedIn(s, ops, sig) && ActionOf(Run(s, ops).handlers, sig) == Ours
  {
    hide Inv, Fresh, Add, Del, AttachTo, FreeFor, Refuses, Borrowed, Kept;
    var s := Fresh(sigEvent, pipe, pri, npriorities, nfds, actions);
    FreshInv(sigEvent, pipe, pri, npriorities, nfds, actions);
    FirstAdd(sigEvent, pipe, pri, npriorities, nfds, actions, e, sig, refused);
    var s1 := AttachTo(s, e, sig, {Signal});
    var s2 := Add(s1, e, None, refused).0;
    AttachInv(s, e, sig, {Signal});
    AddInv(s1, e, None, refused);
    KnownAfterAdd(s1, e, refused);
    var s3 := Add(s2, e, None, granted).0;
    AddInv(s2, e, None, granted);
    KnownAfterAdd(s2, e, granted);
    var ops := [Attach(e, sig, {Signal}), EventAdd(e, None, refused), EventAdd(e, None, granted), EventDel(e)];
    assert ops[1..][1..] == ops[2..] && ops[2..][1..] == ops[3..] && ops[3..][1..] == [];
    assert Step(s, ops[0]) == s1 && Step(s1, ops[1]) == s2 && Step(s2, ops[2]) == s3;
    assert Permitted(s3, ops[3]) && Obeys(s3, ops[3..]);
    assert Permitted(s2, ops[2]) && Obeys(s2, ops[2..]);
    assert Permitted(s1, ops[1]) && Obeys(s1, ops[1..]);
    assert Refuses(s1, ops[1..][0], sig) && RefusedIn(s1, ops[1..], sig);
    RunActions(s1, ops[1..], sig, ActionOf(s1.handlers, sig));
    KeptMeansOurs(Run(s1, ops[1..]), sig);
  }

  lemma KeptMeansOurs(s: State, sig: int)
    ensures Kept(s, sig) ==> ActionOf(s.handlers, sig) == Ours
  {
  }

  lemma FirstAdd(sigEvent: Event, pipe: nat, pri: nat, npriorities: nat, nfds: nat, actions: map<int, Action>,
                 e: Event, sig: int, refused: Env)
    requires pri < npriorities && nfds > pipe && e != sigEvent && 0 <= sig < NSIG && refused.sigact && !refused.ctl
    ensures var s := Fresh(sigEvent, pipe, pri, npriorities, nfds, actions);
            var s1 := AttachTo(s, e, sig, {Signal});
            && Permitted(s, Attach(e, sig, {Signal})) && AddOk(s1, e) && Refuses(s1, EventAdd(e, None, refused), sig)
            && Borrowed(s1, sig, ActionOf(s1.handlers, sig)) && s1.evs[e].events == {Signal}
  {
    assert Signal in {Signal} * (IO_EVENTS + {Signal});
  }

  /** A signal event can be added whatever else is inserted. */
  lemma KnownAfterAdd(s: State, e: Event, env: Env)
    requires Inv(s) && AddOk(s, e) && s.evs[e].events == {Signal}
    ensures var s' := Add(s, e, None, env).0; AddOk(s', e) && s'.evs[e].events == {Signal}
  {
    hide Core, Slots, Signals, Agree, Add, Off, Joined, Timed, SignalAccepted, RoomFor, PollAdd;
    SignalAddEffect(s, e, None, env);
    JoinedEvents(s.evs[e]);
  }

  lemma JoinedEvents(ev: Ev)
    ensures Joined(ev).events == ev.events
  {
  }
}
