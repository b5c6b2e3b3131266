/** event_reinit: a fresh backend, as after a fork, gets every inserted event anew.  The
    loop walks the inserted list while adding the first signal event appends to it. */
module Reinit {
  import opened Seqs
  import opened Timevals
  import opened Events
  import opened Epoll
  import opened BaseState
  import opened BaseInv
  import opened BaseEffects

  /** What takes the old self-pipe event off its queues. */
  function Unpiped(s: State): State {
    if s.sigAdded then RemoveIfOn(QRemove(s, s.sigEvent, Inserted), s.sigEvent, Active).(sigAdded := false) else s
  }

  /** evsignal_dealloc restores every action that is saved. */
  function AllRestored(h: Handlers): Handlers {
    Handlers(map[], map i | i in h.saved.Keys + h.actions.Keys :: if i in h.saved then h.saved[i] else h.actions[i])
  }

  /** The new backend: empty tables, nothing saved, and a new event `sig` on a new self-pipe. */
  function Renewed(s: State, sig: Event, pipe: nat, pri: nat, nfds: nat): State {
    var s1 := Unpiped(s);
    s1.(evs := (s1.evs - {s.sigEvent})[sig := Ev(pipe, {Read, Persist}, pri, {Init, Internal}, Timeval(0, 0), {}, 0, 0)],
        poll := Poll(seq(nfds, i => NO_SLOT), map[]), sigs := seq(NSIG, i => []),
        sigEvent := sig, sigAdded := false, handlers := AllRestored(s1.handlers))
  }

  /** evsel->add leaves the inserted list alone, but for the self-pipe's event the first
      time a signal event comes along. */
  lemma SelAddGrows(s: State, e: Event, env: Env)
    ensures var s' := SelAdd(s, e, env).0;
            || (s'.inserted == s.inserted && (s.sigAdded ==> s'.sigAdded))
            || (s'.inserted == s.inserted + [s.sigEvent] && !s.sigAdded && s'.sigAdded)
  {
    hide PollAdd;
  }

  /** The loop from position `k` of the inserted list on; `envs` are the answers of memory
      and kernel.  It ends although the list can grow, because it grows at most once. */
  ghost function Readd(s: State, k: nat, envs: nat -> Env): (State, int)
    decreases |s.inserted| - k + (if s.sigAdded then 0 else 1)
  {
    if k >= |s.inserted| then (s, 0)
    else
      SelAddGrows(s, s.inserted[k], envs(k));
      var (s1, ok) := SelAdd(s, s.inserted[k], envs(k));
      var (s2, res) := Readd(s1, k + 1, envs);
      (s2, if ok then res else -1)
  }

  ghost function EventReinit(s: State, sig: Event, pipe: nat, pri: nat, nfds: nat, envs: nat -> Env): (State, int) {
    Readd(Renewed(s, sig, pipe, pri, nfds), 0, envs)
  }

  // ----- the state the backend has caught up with -----

  /** `v` is `s` but for the events in `todo`, which it does not yet know as inserted. */
  ghost predicate Rel(s: State, v: State, todo: set<Event>) {
    && s.evs.Keys == v.evs.Keys && todo <= v.evs.Keys && s.sigEvent !in todo
    && (forall x | x in v.evs :: s.evs[x] == if x in todo then WithInserted(v.evs[x]) else v.evs[x])
    && (forall x | x in todo :: Inserted !in v.evs[x].flags)
    && s.poll == v.poll && s.sigs == v.sigs && s.sigEvent == v.sigEvent && s.sigAdded == v.sigAdded
    && s.handlers == v.handlers && s.active == v.active && s.heap == v.heap
  }

  /** What the loop does to `s` is an ordinary insertion into `v`. */
  lemma SelAddRel(s: State, v: State, e: Event, env: Env, todo: set<Event>)
    requires Rel(s, v, todo) && e in todo && s.sigEvent in s.evs
    ensures var (s', ok) := SelAdd(s, e, env);
            var (v', ok') := SelAdd(v, e, env);
            && ok == ok' && Rel(s', v', todo) && s'.sigEvent == s.sigEvent
            && (ok ==> Rel(s', QInsert(v', e, Inserted), todo - {e}))
  {
    hide PollAdd, Rel;
    SameOf(s, v, e, todo);
    if Signal in Of(s, e).events {
      SigAddRel(s, v, e, env, todo);
    } else {
      RelBackend(s, v, IoAdd(s, e, env).0, IoAdd(v, e, env).0, todo);
    }
    var (s', ok) := SelAdd(s, e, env);
    if ok {
      RelInsert(s', SelAdd(v, e, env).0, e, todo);
    }
  }

  lemma SameOf(s: State, v: State, e: Event, todo: set<Event>)
    requires Rel(s, v, todo)
    ensures Of(s, e).fd == Of(v, e).fd && Of(s, e).events == Of(v, e).events
    ensures Of(s, s.sigEvent) == Of(v, s.sigEvent)
    ensures s.poll == v.poll && s.sigs == v.sigs && s.sigEvent == v.sigEvent && s.sigAdded == v.sigAdded && s.handlers == v.handlers
  {
  }

  lemma RelBackend(s: State, v: State, s': State, v': State, todo: set<Event>)
    requires Rel(s, v, todo)
    requires s' == s.(poll := s'.poll, sigs := s'.sigs, sigAdded := s'.sigAdded, handlers := s'.handlers)
    requires v' == v.(poll := s'.poll, sigs := s'.sigs, sigAdded := s'.sigAdded, handlers := s'.handlers)
    ensures Rel(s', v', todo)
  {
  }

  lemma RelInsert(s: State, v: State, e: Event, todo: set<Event>)
    requires Rel(s, v, todo) && e in todo
    ensures Rel(s, QInsert(v, e, Inserted), todo - {e})
  {
  }

  lemma RelPipe(s: State, v: State, todo: set<Event>)
    requires Rel(s, v, todo) && s.sigEvent in s.evs
    ensures Rel(QInsert(s, s.sigEvent, Inserted), QInsert(v, s.sigEvent, Inserted), todo)
  {
  }

  lemma SigAddRel(s: State, v: State, e: Event, env: Env, todo: set<Event>)
    requires Rel(s, v, todo) && e in todo && s.sigEvent in s.evs
    ensures var (s', ok) := SigAdd(s, e, env);
            var (v', ok') := SigAdd(v, e, env);
            ok == ok' && Rel(s', v', todo) && s'.sigEvent == s.sigEvent && e in todo
  {
    hide PollAdd, Rel, Install, Forget, IoInsert;
    SameOf(s, v, e, todo);
    var sig := Of(s, e).fd;
    var s1, v1 := s.(handlers := Install(s.handlers, sig)), v.(handlers := Install(v.handlers, sig));
    RelBackend(s, v, s1, v1, todo);
    RelBackend(s, v, s.(handlers := Forget(s.handlers, sig)), v.(handlers := Forget(v.handlers, sig)), todo);
    RelBackend(s, v, Enlist(s, e), Enlist(v, e), todo);
    RelBackend(s, v, Enlist(s1, e), Enlist(v1, e), todo);
    SameOf(s1, v1, e, todo);
    PipeInsertRel(s1, v1, env, todo);
    var (s2, r) := IoInsert(s1, s1.sigEvent, env);
    var (v2, r') := IoInsert(v1, v1.sigEvent, env);
    SameOf(s2, v2, e, todo);
    var s3, v3 := s2.(sigAdded := true), v2.(sigAdded := true);
    RelBackend(s2, v2, s3, v3, todo);
    RelBackend(s2, v2, Enlist(s3, e), Enlist(v3, e), todo);
  }

  lemma PipeInsertRel(s: State, v: State, env: Env, todo: set<Event>)
    requires Rel(s, v, todo) && s.sigEvent in s.evs
    ensures var (s', r) := IoInsert(s, s.sigEvent, env);
            var (v', r') := IoInsert(v, v.sigEvent, env);
            r == r' && Rel(s', v', todo) && s'.sigEvent == s.sigEvent
            && forall x | x in todo :: Of(s', x).fd == Of(s, x).fd
  {
    hide PollAdd, Rel;
    var e := s.sigEvent;
    SameOf(s, v, e, todo);
    var (s1, ok) := IoAdd(s, e, env);
    var (v1, ok') := IoAdd(v, e, env);
    RelBackend(s, v, s1, v1, todo);
    if ok { RelPipe(s1, v1, todo); }
  }

  // ----- one turn of the loop -----

  /** No two inserted events of the program share a descriptor and a direction, and each
      waits for something. */
  ghost predicate Exclusive(s: State) {
    && (forall x, y | x in s.evs && y in s.evs && x != y && x != s.sigEvent && y != s.sigEvent
          && On(s, x, Inserted) && On(s, y, Inserted) && s.evs[x].fd == s.evs[y].fd ::
          s.evs[x].events * s.evs[y].events * IO_EVENTS == {})
    && (forall x | x in s.evs && On(s, x, Inserted) :: s.evs[x].events * (IO_EVENTS + {Signal}) != {})
  }

  ghost predicate Granting(env: Env) {
    env.tableGrant && env.ctl && env.sigact
  }

  lemma SlotTaken(s: State, v: State, x: Event, e: Event, fd: int, what: What, todo: set<Event>)
    requires Rel(s, v, todo) && SelfPipe(v) && Exclusive(s) && (what == Read || what == Write)
    requires InterestedIn(v, x, fd, what)
    requires e in s.evs && e != s.sigEvent && On(s, e, Inserted) && s.evs[e].fd == fd && what in s.evs[e].events
    ensures x == e
  {
    assert what in s.evs[x].events * s.evs[e].events * IO_EVENTS;
  }

  lemma FreeToJoin(s: State, v: State, e: Event, todo: set<Event>)
    requires Rel(s, v, todo) && Inv(v) && Exclusive(s) && e in todo
    ensures FreeFor(v, e)
  {
    hide Core, Signals, Agree, SelfPipe, Exclusive;
    var rd, wr := At(v.poll.table, v.evs[e].fd).evread, At(v.poll.table, v.evs[e].fd).evwrite;
    if Read in v.evs[e].events && rd != null {
      SlotTaken(s, v, rd, e, v.evs[e].fd, Read, todo);
    }
    if Write in v.evs[e].events && wr != null {
      SlotTaken(s, v, wr, e, v.evs[e].fd, Write, todo);
    }
  }

  lemma IoAccepted(v: State, e: Event, env: Env)
    requires Slots(v) && Agree(v.poll) && Granting(env) && e in v.evs && v.evs[e].fd >= 0
    requires Read in v.evs[e].events || Write in v.evs[e].events
    ensures IoAdd(v, e, env).1
  {
    hide PollAdd, Agree;
    AddAgrees(v.poll, e, v.evs[e].fd, v.evs[e].events, env.tableGrant, env.ctl);
  }

  lemma PipeGranted(v: State, env: Env)
    requires Inv(v) && Granting(env)
    ensures IoInsert(v, v.sigEvent, env).1 == 0
  {
    hide Core, Slots, Signals, Agree, PollAdd;
    ShapeOf(v, v.sigEvent);
    assert Read in v.evs[v.sigEvent].events * IO_EVENTS;
    IoAccepted(v, v.sigEvent, env);
  }

  /** With memory and kernel willing, the event joins `v`. */
  lemma TurnInv(v: State, e: Event, env: Env)
    requires Inv(v) && e in v.evs && e != v.sigEvent && !On(v, e, Inserted) && FreeFor(v, e) && Granting(env)
    requires v.evs[e].events * (IO_EVENTS + {Signal}) != {}
    ensures SelAdd(v, e, env).1 && Inv(QInsert(SelAdd(v, e, env).0, e, Inserted))
  {
    hide Core, Slots, Signals, SelfPipe, Agree, PollAdd, IoInsert;
    if Signal in v.evs[e].events {
      var v1 := v.(handlers := Install(v.handlers, v.evs[e].fd));
      SamesInv(v, v1);
      PipeGranted(v1, env);
      SigEnterInv(v, e, env);
    } else {
      var w :| w in v.evs[e].events * (IO_EVENTS + {Signal});
      assert w in v.evs[e].events * IO_EVENTS;
      ShapeOf(v, e);
      IoAccepted(v, e, env);
      IoEnterInv(v, e, env);
    }
  }

  /** Entering the self-pipe's event a second time changes nothing. */
  lemma AgainHarmless(p: Poll, e: Event, fd: nat, granted: bool, accept: bool)
    requires Agree(p) && At(p.table, fd).evread == e
    ensures PollAdd(p, e, fd, {Read, Persist}, granted, accept) == (p, accept)
  {
    var slot := p.table[fd];
    assert Grown(p.table, fd) == p.table && Enter(slot, e, {Read, Persist}) == slot;
    assert p.table[fd := slot] == p.table;
    assert MaskOf(slot) + IoOf({Read, Persist}) == MaskOf(slot);
    assert p.kernel[fd := MaskOf(slot)] == p.kernel;
  }

  lemma PipeAgain(s: State, v: State, env: Env, todo: set<Event>)
    requires Rel(s, v, todo) && Inv(v) && s.sigEvent in s.evs && On(s, s.sigEvent, Inserted)
    ensures SelAdd(s, s.sigEvent, env) == (s, env.ctl)
  {
    hide Core, Signals, Agree, PollAdd;
    ShapeOf(v, v.sigEvent);
    AgainHarmless(s.poll, s.sigEvent, s.evs[s.sigEvent].fd, env.tableGrant, env.ctl);
  }

  /** The part of the inserted list that is still to come, less the self-pipe's event. */
  ghost function Todo(s: State, k: nat): set<Event> {
    set i | k <= i < |s.inserted| && s.inserted[i] != s.sigEvent :: s.inserted[i]
  }

  /** Apart from the backend only the self-pipe's event can have been inserted. */
  ghost predicate OnlyPipe(s: State, s': State) {
    && s'.sigEvent == s.sigEvent && s.sigEvent in s.evs && s'.heap == s.heap && s'.active == s.active
    && s'.cell == s.cell && s'.broken == s.broken
    && s'.evs == s.evs[s.sigEvent := Of(s', s.sigEvent)]
    && (Of(s', s.sigEvent) == s.evs[s.sigEvent] || Of(s', s.sigEvent) == WithInserted(s.evs[s.sigEvent]))
    && (s'.inserted == s.inserted || s'.inserted == s.inserted + [s.sigEvent])
  }

  lemma SelAddOnlyPipe(s: State, e: Event, env: Env)
    requires Core(s) && s.sigEvent in s.evs
    ensures OnlyPipe(s, SelAdd(s, e, env).0) && Core(SelAdd(s, e, env).0)
  {
    hide PollAdd, Core;
    var s1 := s.(handlers := Install(s.handlers, Of(s, e).fd));
    CoreSame(s, s1);
    CoreSame(s, s.(handlers := Forget(s.handlers, Of(s, e).fd)));
    CoreSame(s, IoAdd(s, e, env).0);
    CoreSame(s, Enlist(s, e));
    CoreSame(s1, Enlist(s1, e));
    PipeOnlyPipe(s1, env);
    var s3 := IoInsert(s1, s1.sigEvent, env).0.(sigAdded := true);
    CoreSame(IoInsert(s1, s1.sigEvent, env).0, s3);
    CoreSame(s3, Enlist(s3, e));
    assert s.evs[s.sigEvent := s.evs[s.sigEvent]] == s.evs;
  }

  lemma PipeOnlyPipe(s: State, env: Env)
    requires Core(s) && s.sigEvent in s.evs
    ensures OnlyPipe(s, IoInsert(s, s.sigEvent, env).0) && Core(IoInsert(s, s.sigEvent, env).0)
  {
    hide PollAdd, Core;
    var e := s.sigEvent;
    var (s1, ok) := IoAdd(s, e, env);
    CoreSame(s, s1);
    assert s.evs[e := s.evs[e]] == s.evs;
    if Wants(s.evs[e]) && ok {
      assert !On(s1, e, Inserted) by { assert Inserted !in s.evs[e].flags * {Inserted, Active}; }
      QInsertCore(s1, e, Inserted);
    }
  }

  lemma OnlyPipeTodo(s: State, s': State, k: nat)
    requires OnlyPipe(s, s') && k < |s.inserted| && NoDup(s.inserted)
    ensures k + 1 <= |s'.inserted| && Todo(s', k + 1) == Todo(s, k) - {s.inserted[k]}
  {
    assert forall i | 0 <= i < |s.inserted| :: s'.inserted[i] == s.inserted[i];
  }

  lemma OnlyPipeExclusive(s: State, s': State)
    requires OnlyPipe(s, s') && Exclusive(s) && s.evs[s.sigEvent].events * (IO_EVENTS + {Signal}) != {}
    ensures Exclusive(s')
  {
  }

  lemma OnlyPipeTwice(s: State, s1: State, s2: State)
    requires OnlyPipe(s, s1) && OnlyPipe(s1, s2) && Core(s2)
    ensures OnlyPipe(s, s2)
  {
    var e := s.sigEvent;
    assert WithInserted(WithInserted(s.evs[e])) == WithInserted(s.evs[e]);
    NotTwice(s.inserted, e);
  }

  lemma NotTwice(list: seq<Event>, e: Event)
    ensures !NoDup(list + [e] + [e])
  {
    var l := list + [e] + [e];
    assert l[|list|] == l[|list| + 1];
  }

  lemma Inserteds(s: State, k: nat)
    requires Core(s) && k < |s.inserted|
    ensures s.inserted[k] in s.evs && On(s, s.inserted[k], Inserted) && NoDup(s.inserted)
  {
    assert s.inserted[k] in s.inserted;
  }

  // ----- the whole loop -----

  /** Once the loop is through, the backend knows all. */
  lemma CaughtUp(s: State, v: State)
    requires Core(s) && Inv(v) && Rel(s, v, {})
    ensures Inv(s)
  {
    hide Core, Slots, Signals, SelfPipe, Agree;
    assert s.evs == v.evs;
    SlotsSame(v, s);
    SignalsSame(v, s);
    SelfPipeSame(v, s);
  }

  lemma {:induction false} ReaddInv(s: State, k: nat, envs: nat -> Env, v: State)
    requires Core(s) && Inv(v) && k <= |s.inserted| && Rel(s, v, Todo(s, k)) && Exclusive(s) && s.sigEvent in s.evs
    requires forall i :: Granting(envs(i))
    ensures Readd(s, k, envs).1 == 0 && Inv(Readd(s, k, envs).0) && OnlyPipe(s, Readd(s, k, envs).0)
    decreases |s.inserted| - k + (if s.sigAdded then 0 else 1)
  {
    hide Core, Inv, Rel, Exclusive, SelAdd, OnlyPipe, QInsert, Todo, Granting;
    if k == |s.inserted| {
      assert Todo(s, k) == {} by { NothingTodo(s, k); }
      CaughtUp(s, v);
      OnlyPipeSelf(s);
    } else {
      var e, env, todo := s.inserted[k], envs(k), Todo(s, k);
      Inserteds(s, k);
      SelAddGrows(s, e, env);
      var (s1, ok) := SelAdd(s, e, env);
      SelAddOnlyPipe(s, e, env);
      OnlyPipeTodo(s, s1, k);
      PipeWaits(s, v, todo);
      OnlyPipeExclusive(s, s1);
      OnlyPipeMore(s, s1);
      if e == s.sigEvent {
        PipeAgain(s, v, env, todo);
        GrantingCtl(env);
        assert todo - {e} == todo by { PipeNotTodo(s, v, todo); }
        ReaddInv(s1, k + 1, envs, v);
      } else {
        InTodo(s, k);
        TodoFacts(s, v, e, todo);
        FreeToJoin(s, v, e, todo);
        TurnInv(v, e, env);
        SelAddRel(s, v, e, env, todo);
        ReaddInv(s1, k + 1, envs, QInsert(SelAdd(v, e, env).0, e, Inserted));
      }
      ReaddCore(s1, k + 1, envs);
      OnlyPipeTwice(s, s1, Readd(s1, k + 1, envs).0);
    }
  }

  lemma ReaddCore(s: State, k: nat, envs: nat -> Env)
    requires Inv(Readd(s, k, envs).0)
    ensures Core(Readd(s, k, envs).0)
  {
    hide Readd;
  }

  lemma NothingTodo(s: State, k: nat)
    requires k == |s.inserted|
    ensures Todo(s, k) == {}
  {
  }

  lemma OnlyPipeSelf(s: State)
    requires s.sigEvent in s.evs
    ensures OnlyPipe(s, s)
  {
    assert s.evs[s.sigEvent := s.evs[s.sigEvent]] == s.evs;
  }

  lemma OnlyPipeMore(s: State, s1: State)
    requires OnlyPipe(s, s1)
    ensures |s1.inserted| >= |s.inserted| && s1.sigEvent == s.sigEvent && s1.sigEvent in s1.evs
  {
  }

  lemma PipeWaits(s: State, v: State, todo: set<Event>)
    requires Rel(s, v, todo) && Inv(v)
    ensures s.sigEvent in s.evs && s.evs[s.sigEvent].events * (IO_EVENTS + {Signal}) != {}
  {
    assert Read in s.evs[s.sigEvent].events * (IO_EVENTS + {Signal});
  }

  lemma GrantingCtl(env: Env)
    requires Granting(env)
    ensures env.ctl
  {
  }

  lemma PipeNotTodo(s: State, v: State, todo: set<Event>)
    requires Rel(s, v, todo)
    ensures todo - {s.sigEvent} == todo
  {
  }

  lemma InTodo(s: State, k: nat)
    requires k < |s.inserted| && s.inserted[k] != s.sigEvent
    ensures s.inserted[k] in Todo(s, k)
  {
  }

  lemma TodoFacts(s: State, v: State, e: Event, todo: set<Event>)
    requires Rel(s, v, todo) && e in todo && Exclusive(s)
    ensures e in v.evs && e != v.sigEvent && !On(v, e, Inserted) && v.evs[e].events * (IO_EVENTS + {Signal}) != {}
  {
    assert On(s, e, Inserted);
  }

  // ----- the start of the loop -----

  /** The old event on the self-pipe leaves all queues. */
  lemma UnpipedCore(s: State)
    requires Inv(s)
    ensures var s1, e := Unpiped(s), s.sigEvent;
            && Core(s1) && e in s1.evs && SameQueues(Off(s, e, {Inserted} + {Active}), s1)
            && Inserted !in s1.evs[e].flags && Active !in s1.evs[e].flags && Timeout !in s1.evs[e].flags
  {
    hide Core, Slots, Signals, Agree, Off, QRemove;
    var e := s.sigEvent;
    var s1 := RemoveIfOn(s, e, Inserted);
    var s2 := RemoveIfOn(s1, e, Active);
    ListsOf(s);
    RemoveIfOnEffect(s, e, Inserted);
    RemoveIfOnCore(s, e, Inserted);
    ListsOf(s1);
    RemoveIfOnEffect(s1, e, Active);
    RemoveIfOnCore(s1, e, Active);
    OffOff(s, s1, e, {Inserted}, Active);
    OffSame(Off(s1, e, {Active}), s2, s, e, {Inserted} + {Active});
    CoreSame(s2, Unpiped(s));
  }

  lemma OnNothing(s: State, e: Event)
    requires Core(s) && e in s.evs
    requires Inserted !in s.evs[e].flags && Active !in s.evs[e].flags && Timeout !in s.evs[e].flags
    ensures e !in s.inserted && e !in s.heap && forall i | 0 <= i < |s.active| :: e !in s.active[i]
  {
  }

  /** `s` before the loop, with nothing inserted. */
  ghost function Unknown(s: State): State {
    s.(evs := map e | e in s.evs :: s.evs[e].(flags := s.evs[e].flags - {Inserted}),
       inserted := [], count := |Counted(s, Active)| + |Counted(s, Timeout)|)
  }

  lemma RenewedCore(s: State, sig: Event, pipe: nat, pri: nat, nfds: nat)
    requires Inv(s) && sig !in s.evs && pri < |s.active|
    ensures Core(Renewed(s, sig, pipe, pri, nfds))
  {
    hide Without, Slots, Signals, Agree, Core, Inv;
    var s1, s' := Unpiped(s), Renewed(s, sig, pipe, pri, nfds);
    UnpipedCore(s);
    PipeInternal(s);
    OnNothing(s1, s.sigEvent);
    SwapCore(s1, s', s.sigEvent, sig);
  }

  lemma PipeInternal(s: State)
    requires Inv(s)
    ensures s.sigEvent in s.evs && Internal in s.evs[s.sigEvent].flags
  {
  }

  /** An internal event on no queue makes way for another one. */
  lemma SwapCore(s: State, s': State, e: Event, sig: Event)
    requires Core(s) && e in s.evs && sig !in s.evs && Internal in s.evs[e].flags
    requires e !in s.inserted && e !in s.heap && (forall i | 0 <= i < |s.active| :: e !in s.active[i])
    requires s'.evs.Keys == s.evs.Keys - {e} + {sig} && (forall x | x in s.evs && x != e :: s'.evs[x] == s.evs[x])
    requires Shape(s, s'.evs[sig]) && s'.evs[sig].flags == {Init, Internal}
    requires s'.inserted == s.inserted && s'.heap == s.heap && s'.cap == s.cap && s'.active == s.active
    requires s'.count == s.count && s'.countActive == s.countActive && s'.cell == s.cell
    ensures Core(s')
  {
    hide Lists, TotalLen;
    assert Counted(s', Inserted) == Counted(s, Inserted);
    assert Counted(s', Active) == Counted(s, Active);
    assert Counted(s', Timeout) == Counted(s, Timeout);
    SwapLists(s, s', e, sig);
  }

  lemma SwapLists(s: State, s': State, e: Event, sig: Event)
    requires Lists(s) && e in s.evs && sig !in s.evs
    requires e !in s.inserted && e !in s.heap && (forall i | 0 <= i < |s.active| :: e !in s.active[i])
    requires s'.evs.Keys == s.evs.Keys - {e} + {sig} && (forall x | x in s.evs && x != e :: s'.evs[x] == s.evs[x])
    requires s'.evs[sig].flags == {Init, Internal}
    requires s'.inserted == s.inserted && s'.heap == s.heap && s'.cap == s.cap && s'.active == s.active
    ensures Lists(s')
  {
  }

  lemma UnknownCore(s: State)
    requires Core(s)
    ensures Core(Unknown(s))
  {
    hide Lists, Counts;
    UnknownCounts(s);
    UnknownLists(s);
  }

  lemma UnknownCounts(s: State)
    requires Counts(s) && Lists(s)
    ensures Counts(Unknown(s))
  {
    hide Lists, TotalLen;
    var v := Unknown(s);
    assert Counted(v, Inserted) == {};
    assert Counted(v, Active) == Counted(s, Active);
    assert Counted(v, Timeout) == Counted(s, Timeout);
  }

  lemma UnknownLists(s: State)
    requires Lists(s)
    ensures Lists(Unknown(s))
  {
    hide Counted;
  }

  /** The new self-pipe's descriptor is none the program watches for reading. */
  ghost predicate FreshPipe(s: State, sig: Event, pipe: nat, pri: nat) {
    && sig !in s.evs && pri < |s.active|
    && forall e | e in s.evs && e != s.sigEvent && Read in s.evs[e].events :: s.evs[e].fd != pipe
  }

  lemma RenewedEvs(s: State, sig: Event, pipe: nat, pri: nat, nfds: nat)
    requires Inv(s) && sig !in s.evs
    ensures var r := Renewed(s, sig, pipe, pri, nfds);
            && r.evs.Keys == s.evs.Keys - {s.sigEvent} + {sig}
            && (forall x | x in s.evs && x != s.sigEvent :: r.evs[x] == s.evs[x])
            && r.heap == s.heap && r.active == Off(s, s.sigEvent, {Inserted} + {Active}).active
            && r.inserted == Without(s.inserted, s.sigEvent)
  {
    hide Core, Slots, Signals, Agree, Without;
    UnpipedCore(s);
    PipeInternal(s);
  }

  lemma RenewedWired(s: State, sig: Event, pipe: nat, pri: nat, nfds: nat)
    requires Inv(s) && FreshPipe(s, sig, pipe, pri) && nfds > 0
    ensures Wired(Unknown(Renewed(s, sig, pipe, pri, nfds)))
  {
    hide Core, Without, Off, Unpiped, Slots, Signals, Agree;
    var r := Renewed(s, sig, pipe, pri, nfds);
    var v := Unknown(r);
    RenewedEvs(s, sig, pipe, pri, nfds);
    assert SelfPipe(v);
    EmptyWired(v);
  }

  lemma EmptyWired(v: State)
    requires |v.poll.table| > 0 && (forall fd | 0 <= fd < |v.poll.table| :: v.poll.table[fd] == NO_SLOT) && v.poll.kernel == map[]
    requires |v.sigs| == NSIG && (forall i | 0 <= i < NSIG :: v.sigs[i] == [])
    requires forall e | e in v.evs :: Inserted !in v.evs[e].flags
    ensures Slots(v) && Signals(v) && Agree(v.poll)
  {
    assert KernelOf(v.poll.table) == map[];
  }

  lemma RenewedRel(r: State)
    requires Core(r) && r.sigEvent in r.evs && Inserted !in r.evs[r.sigEvent].flags
    ensures Rel(r, Unknown(r), Todo(r, 0))
  {
    hide Counted, TimerHeap, ActiveQueues, TotalLen;
    var v, todo := Unknown(r), Todo(r, 0);
    forall x | x in r.evs
      ensures r.evs[x] == if x in todo then WithInserted(v.evs[x]) else v.evs[x]
      ensures x in todo <==> Inserted in r.evs[x].flags
    {
      TodoIff(r, x);
      assert Inserted in r.evs[x].flags ==> r.evs[x].flags - {Inserted} + {Inserted} == r.evs[x].flags;
      assert Inserted !in r.evs[x].flags ==> r.evs[x].flags - {Inserted} == r.evs[x].flags;
    }
    forall x | x in todo ensures x in r.evs {}
  }

  lemma TodoIff(r: State, x: Event)
    requires Core(r) && r.sigEvent in r.evs && Inserted !in r.evs[r.sigEvent].flags && x in r.evs
    ensures x in Todo(r, 0) <==> Inserted in r.evs[x].flags
  {
    hide Counts, TimerHeap, ActiveQueues;
    if Inserted in r.evs[x].flags {
      var i :| 0 <= i < |r.inserted| && r.inserted[i] == x;
    }
  }

  lemma RenewedExclusive(s: State, sig: Event, pipe: nat, pri: nat, nfds: nat)
    requires Inv(s) && FreshPipe(s, sig, pipe, pri)
    ensures Exclusive(Renewed(s, sig, pipe, pri, nfds))
  {
    hide Core, Signals, Agree, Without, Off, Unpiped;
    var r := Renewed(s, sig, pipe, pri, nfds);
    RenewedEvs(s, sig, pipe, pri, nfds);
    forall x, y | x in r.evs && y in r.evs && x != y && x != sig && y != sig
        && On(r, x, Inserted) && On(r, y, Inserted) && r.evs[x].fd == r.evs[y].fd
      ensures r.evs[x].events * r.evs[y].events * IO_EVENTS == {}
    {
      OneEach(s, x, y);
    }
  }

  /** Two inserted events on one descriptor wait for different directions. */
  lemma OneEach(s: State, x: Event, y: Event)
    requires Slots(s) && x in s.evs && y in s.evs && On(s, x, Inserted) && On(s, y, Inserted)
    requires s.evs[x].fd == s.evs[y].fd && x != y
    ensures s.evs[x].events * s.evs[y].events * IO_EVENTS == {}
  {
  }

  /** With memory and kernel willing, event_reinit leaves a base whose new table, kernel
      registrations and signal lists are exactly those of its inserted events.  Every event
      of the program is as it was, on the same structures in the same order; the event on
      the new self-pipe closes the inserted list if it is needed at all. */
  lemma EventReinitExact(s: State, sig: Event, pipe: nat, pri: nat, nfds: nat, envs: nat -> Env)
    requires Inv(s) && FreshPipe(s, sig, pipe, pri) && nfds > 0 && forall i :: Granting(envs(i))
    ensures var (s', res) := EventReinit(s, sig, pipe, pri, nfds, envs);
            var kept := Without(s.inserted, s.sigEvent);
            && res == 0 && Inv(s')
            && s'.evs.Keys == s.evs.Keys - {s.sigEvent} + {sig} && s'.sigEvent == sig
            && (forall x | x in s.evs && x != s.sigEvent :: s'.evs[x] == s.evs[x])
            && s'.inserted == (if s'.sigAdded then kept + [sig] else kept)
            && s'.heap == s.heap && s'.active == Off(s, s.sigEvent, {Inserted} + {Active}).active
            && s'.evs[sig] == Ev(pipe, {Read, Persist}, pri, {Init, Internal} + (if s'.sigAdded then {Inserted} else {}),
                                 Timeval(0, 0), {}, 0, 0)
            && s'.cell == s.cell && s'.broken == s.broken
  {
    hide Core, Wired, Without, Off, Renewed, Unknown, Todo, Readd, Rel, Exclusive, Granting;
    var r := Renewed(s, sig, pipe, pri, nfds);
    RenewedCore(s, sig, pipe, pri, nfds);
    RenewedEvs(s, sig, pipe, pri, nfds);
    RenewedPipe(s, sig, pipe, pri, nfds);
    UnknownCore(r);
    RenewedWired(s, sig, pipe, pri, nfds);
    RenewedRel(r);
    RenewedExclusive(s, sig, pipe, pri, nfds);
    ReaddInv(r, 0, envs, Unknown(r));
    PipeListed(r, Readd(r, 0, envs).0);
  }

  lemma RenewedPipe(s: State, sig: Event, pipe: nat, pri: nat, nfds: nat)
    ensures var r := Renewed(s, sig, pipe, pri, nfds);
            && r.sigEvent == sig && sig in r.evs && r.cell == s.cell && r.broken == s.broken
            && r.evs[sig] == Ev(pipe, {Read, Persist}, pri, {Init, Internal}, Timeval(0, 0), {}, 0, 0)
  {
    hide Without, SetList, ListAt;
  }

  lemma PipeListed(r: State, s': State)
    requires Core(r) && Inv(s') && OnlyPipe(r, s') && !On(r, r.sigEvent, Inserted)
    ensures s'.inserted == if s'.sigAdded then r.inserted + [r.sigEvent] else r.inserted
    ensures Of(s', r.sigEvent) == if s'.sigAdded then WithInserted(r.evs[r.sigEvent]) else r.evs[r.sigEvent]
  {
    hide Slots, Signals, Agree, Counts, TimerHeap, ActiveQueues;
    assert (r.inserted + [r.sigEvent])[|r.inserted|] == r.sigEvent;
  }

  // ----- refusals -----

  lemma SelAddEvents(s: State, e: Event, env: Env)
    ensures forall x :: Of(SelAdd(s, e, env).0, x).events == Of(s, x).events
  {
    hide PollAdd, Install, Forget, Enlist;
    var s1 := s.(handlers := Install(s.handlers, Of(s, e).fd));
    assert Enlist(s, e).evs == s.evs by { EnlistEvs(s, e); }
    EnlistEvs(s1, e);
    EnlistEvs(IoInsert(s1, s1.sigEvent, env).0.(sigAdded := true), e);
  }

  lemma EnlistEvs(s: State, e: Event)
    ensures Enlist(s, e).evs == s.evs
  {
  }

  lemma {:induction false} ReaddRefused(s: State, k: nat, envs: nat -> Env, i: nat)
    requires k <= i < |s.inserted| && Signal !in Of(s, s.inserted[i]).events && !envs(i).ctl
    ensures Readd(s, k, envs).1 == -1
    decreases i - k
  {
    hide SelAdd;
    var e, env := s.inserted[k], envs(k);
    SelAddGrows(s, e, env);
    SelAddEvents(s, e, env);
    if k == i {
      ReaddResult(SelAdd(s, e, env).0, k + 1, envs);
      IoRefused(s, e, env);
    } else {
      ReaddRefused(SelAdd(s, e, env).0, k + 1, envs, i);
    }
  }

  lemma IoRefused(s: State, e: Event, env: Env)
    requires Signal !in Of(s, e).events && !env.ctl
    ensures !SelAdd(s, e, env).1
  {
  }

  lemma {:induction false} ReaddResult(s: State, k: nat, envs: nat -> Env)
    ensures Readd(s, k, envs).1 == 0 || Readd(s, k, envs).1 == -1
    decreases |s.inserted| - k + (if s.sigAdded then 0 else 1)
  {
    hide SelAdd;
    if k < |s.inserted| {
      SelAddGrows(s, s.inserted[k], envs(k));
      ReaddResult(SelAdd(s, s.inserted[k], envs(k)).0, k + 1, envs);
    }
  }

  /** event_reinit says -1 if the kernel refuses any of the program's read and write events,
      whatever comes after it. */
  lemma RefusalIsTold(s: State, sig: Event, pipe: nat, pri: nat, nfds: nat, envs: nat -> Env, i: nat)
    requires Inv(s) && sig !in s.evs && pri < |s.active| && nfds > 0
    requires var kept := Without(s.inserted, s.sigEvent);
             i < |kept| && kept[i] != s.sigEvent && kept[i] in s.evs && Signal !in s.evs[kept[i]].events && !envs(i).ctl
    ensures EventReinit(s, sig, pipe, pri, nfds, envs).1 == -1
  {
    hide Inv, Renewed, Readd, Without;
    RenewedEvs(s, sig, pipe, pri, nfds);
    ReaddRefused(Renewed(s, sig, pipe, pri, nfds), 0, envs, i);
  }
}
