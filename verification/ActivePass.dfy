/** event_process_active with callbacks that may call anything the contract permits. */
module ActivePass {
  import opened Seqs
  import opened Timevals
  import opened Events
  import opened Epoll
  import opened MinHeaps
  import opened BaseState
  import opened BaseInv
  import opened BaseEffects
  import opened BaseRuns
  import opened Timeouts

  /** Why a pass is over: its queue ran empty, a callback broke the loop, the script says
      nothing about the next callback, or a callback left the contract. */
  datatype Stop = Done | Broke | Cut | Misuse

  /** One event taken from the queue: the calls it was due, those it got, and what its
      callbacks did. */
  datatype Served = Served(e: Event, due: int, made: nat, script: seq<seq<Op>>)

  /** The state reached, the callbacks not yet used, the events called, call by call, and
      the events served, one entry for each time one was taken from the queue. */
  datatype Outcome = Outcome(s: State, rest: seq<seq<Op>>, calls: seq<Event>, log: seq<Served>, stop: Stop)

  function Heads(log: seq<Served>): seq<Event> {
    seq(|log|, i requires 0 <= i < |log| => log[i].e)
  }

  /** The state in which the next callback of `e` runs. */
  function Calling(s: State, e: Event): State {
    Put(s, e, Of(s, e).(ncalls := s.cell.n - 1)).(cell := s.cell.(n := s.cell.n - 1))
  }

  /** The loop `while (ncalls)`; the k-th callback to come performs script[k]. */
  ghost function Calls(s: State, e: Event, script: seq<seq<Op>>): (o: Outcome)
    ensures |o.calls| + |o.rest| == |script| && (s.cell.n != 0 && o.stop == Done ==> |o.rest| < |script|)
    decreases |script|
  {
    if s.cell.n == 0 then Outcome(s, script, [], [], Done)
    else if script == [] then Outcome(s, [], [], [], Cut)
    else
      var s1 := Calling(s, e);
      if !Obeys(s1, script[0]) then Outcome(s1, script[1..], [e], [], Misuse)
      else
        var s2 := Run(s1, script[0]);
        if s2.broken then Outcome(s2, script[1..], [e], [], Broke)
        else
          var o := Calls(s2, e, script[1..]);
          o.(calls := [e] + o.calls)
  }

  /** Taking the head of a queue. */
  ghost function Taken(s: State, e: Event): State {
    if Persist in Of(s, e).events then QRemove(s, e, Active) else Del(s, e).0
  }

  /** And preparing its calls. */
  ghost function Serve(s: State, e: Event): State {
    var s1 := Taken(s, e);
    Put(s1, e, Of(s1, e).(pncalls := s1.cell.pass)).(cell := s1.cell.(n := Of(s1, e).ncalls))
  }

  ghost function Serving(s: State, e: Event, script: seq<seq<Op>>): Served {
    var o := Calls(Serve(s, e), e, script);
    Served(e, Of(s, e).ncalls, |o.calls|, script[..|o.calls|])
  }

  /** The pass over queue `q`. */
  ghost function Pass(s: State, q: nat, script: seq<seq<Op>>): Outcome
    requires Inv(s) && q < |s.active|
    decreases |script|, |ListAt(s.active, q)|
  {
    if s.active[q] == [] then Outcome(s, script, [], [], Done)
    else
      var e := s.active[q][0];
      ServeInv(s, q);
      CallsInv(Serve(s, e), e, script);
      CallsNone(Serve(s, e), e, script);
      var o := Calls(Serve(s, e), e, script);
      if o.stop != Done then o.(log := [Serving(s, e, script)])
      else
        var o' := Pass(o.s, q, o.rest);
        o'.(calls := o.calls + o'.calls, log := [Serving(s, e, script)] + o'.log)
  }

  /** A counter of its own for a pass that begins; and its end. */
  function Begun(s: State): State {
    s.(cell := Counter(0, s.cell.pass + 1, true, s.cell.wild))
  }

  function Ended(s: State): State {
    s.(cell := s.cell.(running := false))
  }

  lemma BegunInv(s: State)
    requires Inv(s)
    ensures Inv(Begun(s)) && Inv(Ended(s)) && Begun(s).active == s.active
  {
    hide Core, Wired;
    SamesInv(s, Begun(s));
    SamesInv(s, Ended(s));
  }

  /** event_process_active as a whole. */
  ghost function Processed(s: State, script: seq<seq<Op>>): Outcome
    requires Inv(s) && FirstQueue(s.active) < |s.active|
  {
    BegunInv(s);
    var o := Pass(Begun(s), FirstQueue(s.active), script);
    o.(s := Ended(o.s))
  }

  /** The queue event_process_active picks. */
  function FirstQueue(active: seq<seq<Event>>): (i: nat)
    ensures i <= |active| && (i < |active| ==> active[i] != [])
    ensures forall j | 0 <= j < i :: active[j] == []
  {
    if active == [] || active[0] != [] then 0 else 1 + FirstQueue(active[1..])
  }

  // ----- the invariant, at every callback -----

  lemma CallingInv(s: State, e: Event)
    requires Inv(s) && e in s.evs && 0 < s.cell.n < 0x1_0000
    ensures Inv(Calling(s, e)) && e in Calling(s, e).evs && |Calling(s, e).active| == |s.active|
  {
    hide Core, Wired;
    ShapeOf(s, e);
    FieldsInv(s, Calling(s, e), e);
  }

  /** Fields that no structure depends on can change freely. */
  lemma FieldsInv(s: State, s': State, e: Event)
    requires Inv(s) && e in s.evs && s' == Put(s, e, Of(s', e)).(cell := s'.cell) && s'.cell.pass == s.cell.pass
    requires Of(s', e) == s.evs[e].(ncalls := Of(s', e).ncalls, pncalls := Of(s', e).pncalls)
    requires 0 <= Of(s', e).ncalls < 0x1_0000 && Of(s', e).pncalls <= s.cell.pass
    requires Active in s.evs[e].flags ==> Of(s', e).pncalls == 0
    ensures Inv(s')
  {
    hide Core, Slots, Signals, Agree, SelfPipe;
    ShapeOf(s, e);
    CoreFrame(s, s', e);
    SlotsFrame(s, s', e);
    SignalsFrame(s, s', e);
    SelfPipeTimer(s, e);
    SelfPipeSelf(s, e);
    SelfPipeFrame(s, s', e);
  }

  lemma {:induction false} RunKeeps(s: State, ops: seq<Op>)
    ensures Run(s, ops).evs.Keys >= s.evs.Keys && |Run(s, ops).active| == |s.active|
    decreases |ops|
  {
    hide Step;
    if ops != [] {
      StepKeeps(s, ops[0]);
      RunKeeps(Step(s, ops[0]), ops[1..]);
    }
  }

  lemma StepKeeps(s: State, op: Op)
    ensures Step(s, op).evs.Keys >= s.evs.Keys && |Step(s, op).active| == |s.active|
  {
    hide PollAdd, PollDel, Without, Add, Del;
    match op {
      case EventAdd(e, tv, env) => AddKeeps(s, e, tv, env);
      case EventDel(e) => DelKeeps(s, e);
      case _ =>
    }
  }

  lemma DelKeeps(s: State, e: Event)
    ensures Del(s, e).0.evs.Keys >= s.evs.Keys && |Del(s, e).0.active| == |s.active|
  {
    hide PollDel, Without, RemoveIfOn;
    RemoveKeeps(Cancel(s, e), e, Timeout);
    RemoveKeeps(RemoveIfOn(Cancel(s, e), e, Timeout), e, Active);
  }

  lemma RemoveKeeps(s: State, e: Event, q: Flag)
    ensures RemoveIfOn(s, e, q).evs.Keys >= s.evs.Keys && |RemoveIfOn(s, e, q).active| == |s.active|
  {
    hide Without;
  }

  lemma AddKeeps(s: State, e: Event, tv: Option<Timeval>, env: Env)
    ensures Add(s, e, tv, env).0.evs.Keys >= s.evs.Keys && |Add(s, e, tv, env).0.active| == |s.active|
  {
    hide Insert, Schedule, Capacity;
    var s0 := if tv.Some? && Timeout !in Of(s, e).flags then Reserved(s) else s;
    InsertKeepsKeys(s0, e, env);
    if tv.Some? { ScheduleKeeps(Insert(s0, e, env).0, e, tv.value, env.now); }
  }

  lemma ScheduleKeeps(s: State, e: Event, tv: Timeval, now: Timeval)
    ensures Schedule(s, e, tv, now).evs.Keys >= s.evs.Keys && |Schedule(s, e, tv, now).active| == |s.active|
  {
    hide Without, RemoveIfOn;
    RemoveKeeps(s, e, Timeout);
  }

  lemma InsertKeepsKeys(s: State, e: Event, env: Env)
    ensures Insert(s, e, env).0.evs.Keys >= s.evs.Keys && Insert(s, e, env).0.active == s.active
  {
    hide SelAdd;
    SelAddKeepsKeys(s, e, env);
  }

  lemma SelAddKeepsKeys(s: State, e: Event, env: Env)
    ensures SelAdd(s, e, env).0.evs.Keys >= s.evs.Keys && SelAdd(s, e, env).0.active == s.active
  {
    hide PollAdd, Install, Forget, IoInsert;
    PipeKeepsKeys(s.(handlers := Install(s.handlers, Of(s, e).fd)), env);
  }

  lemma PipeKeepsKeys(s: State, env: Env)
    ensures IoInsert(s, s.sigEvent, env).0.evs.Keys >= s.evs.Keys && IoInsert(s, s.sigEvent, env).0.active == s.active
  {
    hide PollAdd;
  }

  lemma {:induction false} CallsInv(s: State, e: Event, script: seq<seq<Op>>)
    requires Inv(s) && e in s.evs && 0 <= s.cell.n < 0x1_0000
    ensures Inv(Calls(s, e, script).s) && |Calls(s, e, script).s.active| == |s.active|
    decreases |script|
  {
    hide Inv, Calling, Obeys, Run, SomeStops, SomeWild;
    if s.cell.n != 0 && script != [] {
      CallingInv(s, e);
      CallingCell(s, e);
      var s1 := Calling(s, e);
      if Obeys(s1, script[0]) {
        RunInv(s1, script[0]);
        RunKeeps(s1, script[0]);
        RunCell(s1, script[0]);
        CallsInv(Run(s1, script[0]), e, script[1..]);
      }
    }
  }

  lemma CallsNone(s: State, e: Event, script: seq<seq<Op>>)
    ensures s.cell.n == 0 ==> Calls(s, e, script) == Outcome(s, script, [], [], Done)
  {
  }

  /** The event served is the head of its queue; the rest of the queue stays, and unless it
      is persistent the event is on no structure when its first call starts. */
  lemma ServeInv(s: State, q: nat)
    requires Inv(s) && q < |s.active| && s.active[q] != []
    ensures var e, s' := s.active[q][0], Serve(s, s.active[q][0]);
            && Inv(s') && e in s.evs && e in s'.evs && |s'.active| == |s.active| && s'.active[q] == s.active[q][1..]
            && (forall i | 0 <= i < |s.active| && i != q :: s'.active[i] == s.active[i])
            && s'.evs == s.evs[e := s.evs[e].(pncalls := s.cell.pass,
                 flags := s.evs[e].flags - (if Persist in s.evs[e].events then {Active} else QUEUES))]
            && s'.cell == s.cell.(n := s.evs[e].ncalls) && 0 <= s'.cell.n < 0x1_0000
            && s'.sigEvent == s.sigEvent && s'.broken == s.broken
  {
    hide Core, Wired, Taken, Without;
    var e := s.active[q][0];
    HeadOfQueue(s, q);
    WithoutHead(s.active[q]);
    TakenInv(s, q);
    FieldsInv(Taken(s, e), Serve(s, e), e);
  }

  lemma TakenInv(s: State, q: nat)
    requires Inv(s) && q < |s.active| && s.active[q] != []
    ensures var e, s1 := s.active[q][0], Taken(s, s.active[q][0]);
            && Inv(s1) && e in s.evs && s1.active == s.active[q := Without(s.active[q], e)] && s1.cell == s.cell
            && s1.sigEvent == s.sigEvent && s1.broken == s.broken
            && s1.evs == s.evs[e := s.evs[e].(
                 flags := s.evs[e].flags - (if Persist in s.evs[e].events then {Active} else QUEUES))]
  {
    hide Core, Wired, Del, Without;
    var e := s.active[q][0];
    HeadOfQueue(s, q);
    if Persist in s.evs[e].events {
      ServePersistInv(s, e);
    } else {
      DelInv(s, e);
      DelEffect(s, e);
      DelBackend(s, e);
    }
  }

  lemma WithoutHead(list: seq<Event>)
    requires list != []
    ensures Without(list, list[0]) == list[1..]
  {
  }

  lemma HeadOfQueue(s: State, q: nat)
    requires Inv(s) && q < |s.active| && s.active[q] != []
    ensures var e := s.active[q][0];
            && e in s.evs && Active in s.evs[e].flags && s.evs[e].pri == q && 0 <= s.evs[e].ncalls < 0x1_0000
            && s.evs[e].pncalls == 0 && (Persist !in s.evs[e].events ==> e != s.sigEvent)
  {
    hide Wired, Counts, InsertedList, TimerHeap;
    SelfPipePersists(s);
    assert s.active[q][0] in s.active[q];
  }

  lemma SelfPipePersists(s: State)
    requires Inv(s)
    ensures s.sigEvent in s.evs && Persist in s.evs[s.sigEvent].events
  {
    hide Core, Slots, Signals, Agree;
  }

  lemma ServePersistInv(s: State, e: Event)
    requires Inv(s) && e in s.evs && On(s, e, Active)
    ensures Inv(QRemove(s, e, Active))
  {
    hide Core, Slots, Signals, Agree, SelfPipe;
    var s' := QRemove(s, e, Active);
    QRemoveCore(s, e, Active);
    SlotsFrame(s, s', e);
    SignalsFrame(s, s', e);
    SelfPipeTimer(s, e);
    SelfPipeFrame(s, s', e);
  }

  // ----- how often an event is called -----

  /** Deleting this event writes through a pointer to the counter of a pass that is over. */
  ghost predicate Stale(s: State, e: Event) {
    Cancels(Of(s, e)) && !(s.cell.running && Of(s, e).pncalls == s.cell.pass)
  }

  /** The calls that stop the repeats of the event being served: deleting an event, be it
      another one, that has calls left on the counter of this pass. */
  ghost predicate StopsRepeats(s: State, op: Op) {
    op.EventDel? && Cancels(Of(s, op.e)) && !Stale(s, op.e)
  }

  ghost predicate WritesWild(s: State, op: Op) {
    op.EventDel? && Stale(s, op.e)
  }

  /** event_del is the only call that writes through ev_pncalls: event_add would do so only
      for an active event, and while an event is active the pointer is NULL. */
  lemma StepCell(s: State, op: Op)
    requires Inv(s) && Permitted(s, op)
    ensures Step(s, op).cell == if StopsRepeats(s, op) then s.cell.(n := 0)
                                else if WritesWild(s, op) then s.cell.(wild := true) else s.cell
  {
    hide Inv, Add, Del;
    match op {
      case EventAdd(e, tv, env) => AddChanges(s, e, tv, env);
      case EventDel(e) => CoreOf(s); DelEffect(s, e);
      case _ =>
    }
  }

  /** Whether some call in the run stops the repeats, or writes where it must not. */
  ghost predicate SomeStops(s: State, ops: seq<Op>)
    decreases |ops|
  {
    ops != [] && (StopsRepeats(s, ops[0]) || SomeStops(Step(s, ops[0]), ops[1..]))
  }

  ghost predicate SomeWild(s: State, ops: seq<Op>)
    decreases |ops|
  {
    ops != [] && (WritesWild(s, ops[0]) || SomeWild(Step(s, ops[0]), ops[1..]))
  }

  lemma {:induction false} RunCell(s: State, ops: seq<Op>)
    requires Inv(s) && Obeys(s, ops)
    ensures Run(s, ops).cell == s.cell.(n := if SomeStops(s, ops) then 0 else s.cell.n, wild := s.cell.wild || SomeWild(s, ops))
    decreases |ops|
  {
    hide Inv, Step, StopsRepeats, WritesWild, Permitted;
    if ops != [] {
      NotBoth(s, ops[0]);
      StepCell(s, ops[0]);
      StepInv(s, ops[0]);
      RunCell(Step(s, ops[0]), ops[1..]);
    }
  }

  lemma NotBoth(s: State, op: Op)
    ensures !(StopsRepeats(s, op) && WritesWild(s, op))
  {
  }

  /** None of the first `n` callbacks stops the repeats or breaks the loop. */
  ghost predicate Undisturbed(s: State, e: Event, script: seq<seq<Op>>, n: nat)
    decreases n
  {
    n == 0 || s.cell.n == 0 || script == [] ||
    var s1 := Calling(s, e);
    && Obeys(s1, script[0]) && !Run(s1, script[0]).broken
    && (SomeStops(s1, script[0]) ==> s1.cell.n == 0)
    && Undisturbed(Run(s1, script[0]), e, script[1..], n - 1)
  }

  /** A loop that ends of itself has made exactly as many calls as the counter said if none
      of its callbacks stopped the repeats, and fewer if one did; every call is of `e`. */
  lemma {:induction false} CallsExactly(s: State, e: Event, script: seq<seq<Op>>)
    requires Inv(s) && e in s.evs && 0 <= s.cell.n < 0x1_0000
    ensures var o := Calls(s, e, script);
            && |o.calls| <= s.cell.n && (forall i | 0 <= i < |o.calls| :: o.calls[i] == e)
            && (o.stop == Done ==>
                  && |o.calls| <= |script| && o.rest == script[|o.calls|..] && o.s.cell.n == 0
                  && (|o.calls| == s.cell.n <==> Undisturbed(s, e, script, s.cell.n)))
    decreases |script|
  {
    hide Inv, Calling, Obeys, Run, SomeStops, SomeWild;
    if s.cell.n != 0 && script != [] {
      var s1 := Calling(s, e);
      CallingInv(s, e);
      CallingCell(s, e);
      if Obeys(s1, script[0]) {
        var s2 := Run(s1, script[0]);
        RunInv(s1, script[0]);
        RunKeeps(s1, script[0]);
        RunCell(s1, script[0]);
        CallsExactly(s2, e, script[1..]);
        if s2.cell.n == 0 { UndisturbedAtZero(s2, e, script[1..], s.cell.n - 1); }
      }
    }
  }

  lemma CallingCell(s: State, e: Event)
    ensures Calling(s, e).cell == s.cell.(n := s.cell.n - 1)
  {
  }

  lemma UndisturbedAtZero(s: State, e: Event, script: seq<seq<Op>>, n: nat)
    requires s.cell.n == 0
    ensures Undisturbed(s, e, script, n)
  {
  }

  // ----- in which order events are served -----

  /** The events a sequence of calls, or of callbacks, deletes or adds, and those it activates. */
  ghost function Removed(ops: seq<Op>): set<Event> {
    set i | 0 <= i < |ops| && (ops[i].EventDel? || ops[i].EventAdd?) :: ops[i].e
  }

  ghost function Activated(ops: seq<Op>): set<Event> {
    set i | 0 <= i < |ops| && ops[i].EventActive? :: ops[i].e
  }

  ghost function RemovedBy(script: seq<seq<Op>>): set<Event> {
    if script == [] then {} else Removed(script[0]) + RemovedBy(script[1..])
  }

  ghost function ActivatedBy(script: seq<seq<Op>>): set<Event> {
    if script == [] then {} else Activated(script[0]) + ActivatedBy(script[1..])
  }

  lemma {:induction false} BySuffix(script: seq<seq<Op>>, n: nat)
    requires n <= |script|
    ensures RemovedBy(script[n..]) <= RemovedBy(script) && ActivatedBy(script[n..]) <= ActivatedBy(script)
  {
    if n > 0 {
      BySuffix(script[1..], n - 1);
      assert script[1..][n-1..] == script[n..];
    }
  }

  lemma ByHead(ops: seq<Op>)
    requires ops != []
    ensures Removed(ops[1..]) <= Removed(ops) && Activated(ops[1..]) <= Activated(ops)
    ensures ops[0].EventDel? || ops[0].EventAdd? ==> ops[0].e in Removed(ops)
    ensures ops[0].EventActive? ==> ops[0].e in Activated(ops)
  {
    forall x | x in Removed(ops[1..]) ensures x in Removed(ops) {
      var i :| 0 <= i < |ops[1..]| && (ops[1..][i].EventDel? || ops[1..][i].EventAdd?) && ops[1..][i].e == x;
      assert ops[i+1].e == x;
    }
    forall x | x in Activated(ops[1..]) ensures x in Activated(ops) {
      var i :| 0 <= i < |ops[1..]| && ops[1..][i].EventActive? && ops[1..][i].e == x;
      assert ops[i+1].e == x;
    }
  }

  lemma {:induction false} DropSubset(list: seq<Event>, out: set<Event>)
    ensures forall x | x in Drop(list, out) :: x in list
  {
    if list != [] {
      DropSubset(list[1..], out);
    }
  }

  lemma MoreAdded(a1: seq<Event>, o2: set<Event>, a2: seq<Event>, activated: set<Event>)
    requires SetOf(a1) <= activated && SetOf(a2) <= activated
    ensures SetOf(Drop(a1, o2) + a2) <= activated
  {
    DropSubset(a1, o2);
    assert forall x | x in Drop(a1, o2) + a2 :: x in SetOf(a1) || x in SetOf(a2);
  }

  /** A queue that has only lost members, the rest keeping their order, and gained new ones
      at its tail. */
  ghost predicate Evolves(list: seq<Event>, list': seq<Event>, out: set<Event>, added: seq<Event>) {
    list' == Drop(list, out) + added
  }

  lemma {:induction false} DropPlus(a: seq<Event>, b: seq<Event>, out: set<Event>)
    ensures Drop(a + b, out) == Drop(a, out) + Drop(b, out)
  {
    if a == [] {
      assert a + b == b;
    } else {
      DropPlus(a[1..], b, out);
      assert (a + b)[1..] == a[1..] + b;
    }
  }

  lemma {:induction false} DropDrop(list: seq<Event>, o1: set<Event>, o2: set<Event>)
    ensures Drop(Drop(list, o1), o2) == Drop(list, o1 + o2)
  {
    if list != [] {
      DropDrop(list[1..], o1, o2);
      if list[0] !in o1 {
        assert ([list[0]] + Drop(list[1..], o1))[1..] == Drop(list[1..], o1);
      }
    }
  }

  lemma EvolvesTwice(l0: seq<Event>, l1: seq<Event>, l2: seq<Event>, o1: set<Event>, a1: seq<Event>, o2: set<Event>, a2: seq<Event>)
    requires Evolves(l0, l1, o1, a1) && Evolves(l1, l2, o2, a2)
    ensures Evolves(l0, l2, o1 + o2, Drop(a1, o2) + a2)
  {
    DropPlus(Drop(l0, o1), a1, o2);
    DropDrop(l0, o1, o2);
  }

  lemma {:induction false} WithoutIsDrop(list: seq<Event>, e: Event)
    requires NoDup(list)
    ensures Without(list, e) == Drop(list, {e})
  {
    DropWithout(list, e, {});
    DropNothing(Without(list, e));
    assert {} + {e} == {e};
  }

  lemma StepQueue(s: State, op: Op, q: nat) returns (out: set<Event>, added: seq<Event>)
    requires Inv(s) && Permitted(s, op) && q < |s.active|
    ensures |Step(s, op).active| == |s.active| && Evolves(s.active[q], Step(s, op).active[q], out, added)
    ensures out == {} || ((op.EventDel? || op.EventAdd?) && out == {op.e})
    ensures added == [] || (op.EventActive? && added == [op.e])
  {
    hide Inv, Step, Evolves, Permitted;
    StepActive(s, op, q);
    var queue, queue' := s.active[q], Step(s, op).active[q];
    out, added := {}, [];
    ListEvolves(s, q);
    if queue' != queue {
      if op.EventActive? {
        added := [op.e];
      } else {
        out := {op.e};
        ListLoses(s, q, op.e);
      }
    }
  }

  lemma ListEvolves(s: State, q: nat)
    requires q < |s.active|
    ensures Evolves(s.active[q], s.active[q], {}, [])
    ensures forall e :: Evolves(s.active[q], s.active[q] + [e], {}, [e])
  {
    hide Drop;
    DropNothing(s.active[q]);
    assert s.active[q] + [] == s.active[q];
  }

  lemma ListLoses(s: State, q: nat, e: Event)
    requires Inv(s) && q < |s.active|
    ensures Evolves(s.active[q], Without(s.active[q], e), {e}, [])
  {
    hide Inv, Without, Drop;
    CoreOf(s);
    NoDups(s);
    WithoutIsDrop(s.active[q], e);
    var dropped := Drop(s.active[q], {e});
    assert dropped + [] == dropped;
  }

  /** What one call can do to a queue. */
  lemma StepActive(s: State, op: Op, q: nat)
    requires Inv(s) && Permitted(s, op) && q < |s.active|
    ensures |Step(s, op).active| == |s.active|
    ensures var list, list' := s.active[q], Step(s, op).active[q];
            || list' == list
            || ((op.EventDel? || op.EventAdd?) && list' == Without(list, op.e))
            || (op.EventActive? && list' == list + [op.e])
  {
    hide Inv, Add, Del, AddOk;
    match op {
      case EventAdd(e, tv, env) => AddChanges(s, e, tv, env);
      case EventDel(e) => CoreOf(s); DelEffect(s, e);
      case _ =>
    }
  }

  /** Whatever a callback does, it can only take events out of a queue or append to it. */
  lemma {:induction false} RunQueue(s: State, ops: seq<Op>, q: nat) returns (out: set<Event>, added: seq<Event>)
    requires Inv(s) && Obeys(s, ops) && q < |s.active|
    ensures |Run(s, ops).active| == |s.active| && Evolves(s.active[q], Run(s, ops).active[q], out, added)
    ensures out <= Removed(ops) && SetOf(added) <= Activated(ops)
    decreases |ops|
  {
    hide Inv, Step, Permitted, Evolves, Removed, Activated, Drop;
    if ops == [] {
      out, added := {}, [];
      NothingEvolves(s.active[q]);
    } else {
      var o1, a1 := StepQueue(s, ops[0], q);
      StepInv(s, ops[0]);
      var o2, a2 := RunQueue(Step(s, ops[0]), ops[1..], q);
      ByHead(ops);
      MoreAdded(a1, o2, a2, Activated(ops));
      EvolvesTwice(s.active[q], Step(s, ops[0]).active[q], Run(s, ops).active[q], o1, a1, o2, a2);
      out, added := o1 + o2, Drop(a1, o2) + a2;
    }
  }

  lemma NothingEvolves(list: seq<Event>)
    ensures Evolves(list, list, {}, [])
  {
    DropNothing(list);
  }

  lemma {:induction false} CallsQueue(s: State, e: Event, script: seq<seq<Op>>, q: nat) returns (out: set<Event>, added: seq<Event>)
    requires Inv(s) && e in s.evs && 0 <= s.cell.n < 0x1_0000 && q < |s.active|
    ensures |Calls(s, e, script).s.active| == |s.active|
    ensures Evolves(s.active[q], Calls(s, e, script).s.active[q], out, added)
    ensures out <= RemovedBy(script) && SetOf(added) <= ActivatedBy(script)
    decreases |script|
  {
    hide Inv, Obeys, Run, SomeStops, SomeWild, Evolves, Removed, Activated, Drop;
    out, added := {}, [];
    NothingEvolves(s.active[q]);
    if s.cell.n != 0 && script != [] {
      CallingInv(s, e);
      var s1 := Calling(s, e);
      if Obeys(s1, script[0]) {
        var s2 := Run(s1, script[0]);
        RunInv(s1, script[0]);
        RunKeeps(s1, script[0]);
        RunCell(s1, script[0]);
        out, added := RunQueue(s1, script[0], q);
        if !s2.broken {
          var o2, a2 := CallsQueue(s2, e, script[1..], q);
          EvolvesTwice(s.active[q], s2.active[q], Calls(s, e, script).s.active[q], out, added, o2, a2);
          MoreAdded(added, o2, a2, ActivatedBy(script));
          out, added := out + o2, Drop(added, o2) + a2;
        }
      }
    }
  }

  lemma {:induction false} DropMissing(list: seq<Event>, e: Event, out: set<Event>)
    requires e !in list
    ensures Drop(list, out - {e}) == Drop(list, out)
  {
    if list != [] {
      DropMissing(list[1..], e, out);
    }
  }

  /** First in, first out: a pass that ends of itself leaves its queue empty, and has served
      the events that were on the queue in their order, less some that callbacks deleted or
      gave a new timeout, and only then events that callbacks activated. */
  lemma {:induction false} PassFifo(s: State, q: nat, script: seq<seq<Op>>) returns (out: set<Event>, later: seq<Event>)
    requires Inv(s) && q < |s.active| && Pass(s, q, script).stop == Done
    ensures var o := Pass(s, q, script);
            && |o.s.active| == |s.active| && o.s.active[q] == [] && Heads(o.log) == Drop(s.active[q], out) + later
            && Inv(o.s)
    ensures out <= RemovedBy(script) && SetOf(later) <= ActivatedBy(script)
    decreases |script|, |ListAt(s.active, q)|
  {
    hide Inv, Calls, Serve, Drop;
    if s.active[q] == [] {
      out, later := {}, [];
      DropNothing(s.active[q]);
    } else {
      var e, s1 := s.active[q][0], Serve(s, s.active[q][0]);
      ServeInv(s, q);
      CallsInv(s1, e, script);
      CallsNone(s1, e, script);
      var o := Calls(s1, e, script);
      var o1, a1 := CallsQueue(s1, e, script, q);
      var o2, later2 := PassFifo(o.s, q, o.rest);
      EvolvesTwice(s1.active[q], o.s.active[q], Heads(Pass(o.s, q, o.rest).log), o1, a1, o2, later2);
      HeadsCons(Serving(s, e, script), Pass(o.s, q, o.rest).log);
      CallsExactly(s1, e, script);
      BySuffix(script, |o.calls|);
      MoreAdded(a1, o2, later2, ActivatedBy(script));
      out, later := o1 + o2 - {e}, Drop(a1, o2) + later2;
      HeadNotInTail(s, q);
      DropMissing(s.active[q][1..], e, o1 + o2);
      DropHead(s.active[q], out);
    }
  }

  lemma HeadsCons(x: Served, log: seq<Served>)
    ensures Heads([x] + log) == [x.e] + Heads(log)
  {
  }

  lemma HeadNotInTail(s: State, q: nat)
    requires Inv(s) && q < |s.active| && s.active[q] != []
    ensures s.active[q][0] !in s.active[q][1..]
  {
    NoDups(s);
  }

  lemma DropHead(list: seq<Event>, out: set<Event>)
    requires list != [] && list[0] !in out
    ensures Drop(list, out) == [list[0]] + Drop(list[1..], out)
  {
  }

  /** If no callback deletes or re-adds an event of the queue, all of them are served, in order. */
  lemma PassServesAll(s: State, q: nat, script: seq<seq<Op>>)
    requires Inv(s) && q < |s.active| && Pass(s, q, script).stop == Done
    requires forall x | x in s.active[q] :: x !in RemovedBy(script)
    ensures s.active[q] <= Heads(Pass(s, q, script).log)
    ensures forall x | x in Heads(Pass(s, q, script).log) :: x in s.active[q] || x in ActivatedBy(script)
  {
    hide Inv, Pass;
    var out, later := PassFifo(s, q, script);
    DropNone(s.active[q], out);
    assert forall x | x in later :: x in SetOf(later);
  }

  lemma {:induction false} DropNone(list: seq<Event>, out: set<Event>)
    requires forall x | x in list :: x !in out
    ensures Drop(list, out) == list
  {
    if list != [] {
      DropNone(list[1..], out);
    }
  }
}
