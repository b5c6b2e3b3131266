/** What becomes of the counter that ev_pncalls points at: how often each event is called,
    which events are left with calls to cancel, and when a write through the pointer goes
    to the counter of the running pass. */
module PassHistory {
  import opened Seqs
  import opened Timevals
  import opened Events
  import opened Epoll
  import opened BaseState
  import opened BaseInv
  import opened BaseEffects
  import opened BaseRuns
  import opened Timeouts
  import opened ActivePass

  // ----- what calls of the API do to ev_ncalls and ev_pncalls -----

  /** event_active gives an event a new count, and event_set none; both reset ev_pncalls. */
  predicate Renews(op: Op, e: Event) {
    (op.EventActive? || op.Attach?) && op.e == e
  }

  predicate Renewed(ops: seq<Op>, e: Event) {
    ops != [] && (Renews(ops[0], e) || Renewed(ops[1..], e))
  }

  /** No other call touches either field, and none sets ev_pncalls to anything but NULL. */
  lemma StepCounts(s: State, op: Op, e: Event)
    requires Inv(s) && Permitted(s, op)
    ensures var ev, ev' := Of(s, e), Of(Step(s, op), e);
            if Renews(op, e) then ev'.pncalls == 0 else ev'.ncalls == ev.ncalls && ev'.pncalls == ev.pncalls
  {
    hide Inv, Add, Del, AddOk;
    match op {
      case EventAdd(x, tv, env) => AddChanges(s, x, tv, env);
      case EventDel(x) => CoreOf(s); DelEffect(s, x);
      case EventActive(x, _, _) => ActiveUnpointed(s, x);
      case _ =>
    }
  }

  lemma ActiveUnpointed(s: State, e: Event)
    requires Inv(s) && e in s.evs
    ensures Active in s.evs[e].flags ==> s.evs[e].pncalls == 0
    ensures s.evs[e].pncalls <= s.cell.pass && 0 <= s.evs[e].ncalls < 0x1_0000
  {
    hide Wired, Lists, Counts;
    CoreOf(s);
    ShapeOf(s, e);
  }

  lemma {:induction false} RunCounts(s: State, ops: seq<Op>, e: Event)
    requires Inv(s) && Obeys(s, ops)
    ensures var ev, ev' := Of(s, e), Of(Run(s, ops), e);
            && ev'.pncalls == (if Renewed(ops, e) then 0 else ev.pncalls)
            && (!Renewed(ops, e) ==> ev'.ncalls == ev.ncalls)
    decreases |ops|
  {
    hide Inv, Step, Permitted, Renews;
    if ops != [] {
      StepCounts(s, ops[0], e);
      StepInv(s, ops[0]);
      RunCounts(Step(s, ops[0]), ops[1..], e);
    }
  }

  // ----- a callback that deletes its own event -----

  lemma {:induction false} PrefixObeys(s: State, ops: seq<Op>, j: nat)
    requires Inv(s) && Obeys(s, ops) && j <= |ops|
    ensures Obeys(s, ops[..j]) && Inv(Run(s, ops[..j]))
    ensures j < |ops| ==> Permitted(Run(s, ops[..j]), ops[j])
    ensures j < |ops| && StopsRepeats(Run(s, ops[..j]), ops[j]) ==> SomeStops(s, ops)
    decreases j
  {
    hide Inv, Step, Permitted, StopsRepeats;
    if j > 0 {
      StepInv(s, ops[0]);
      PrefixObeys(Step(s, ops[0]), ops[1..], j - 1);
      assert ops[..j][0] == ops[0] && ops[..j][1..] == ops[1..][..j-1];
    }
  }

  predicate RenewedBy(script: seq<seq<Op>>, e: Event) {
    script != [] && (Renewed(script[0], e) || RenewedBy(script[1..], e))
  }

  /** The state in which callback `i` of the repeats starts. */
  ghost function At(s: State, e: Event, script: seq<seq<Op>>, i: nat): State
    requires i < |script|
    decreases i
  {
    if i == 0 then Calling(s, e) else At(Run(Calling(s, e), script[0]), e, script[1..], i - 1)
  }

  /** The first call of an event deletes it at point `j` of what it does. */
  lemma FirstCallDeletes(s: State, e: Event, script: seq<seq<Op>>, j: nat)
    requires Inv(s) && e in s.evs && 1 < s.cell.n < 0x1_0000 && s.cell.running && s.cell.pass > 0
    requires script != [] && Obeys(Calling(s, e), script[0]) && j < |script[0]| && script[0][j] == EventDel(e)
    ensures var at := Run(Calling(s, e), script[0][..j]);
            var stops := s.evs[e].pncalls == s.cell.pass && !Renewed(script[0][..j], e);
            && (StopsRepeats(at, EventDel(e)) <==> stops)
            && (!stops ==> Step(at, EventDel(e)).cell.n == at.cell.n)
            && (stops ==> Calls(s, e, script).calls == [e])
  {
    hide Inv, Obeys, Run, SomeStops, SomeWild, Renewed;
    var s1 := Calling(s, e);
    CallingInv(s, e);
    CallingCell(s, e);
    PrefixObeys(s1, script[0], j);
    var at := Run(s1, script[0][..j]);
    RunCounts(s1, script[0][..j], e);
    RunCell(s1, script[0][..j]);
    StepCell(at, EventDel(e));
    RunCell(s1, script[0]);
    CallsNone(Run(s1, script[0]), e, script[1..]);
  }

  /** What its first call does to the event while the repeats go on. */
  lemma GoesOn(s: State, e: Event, script: seq<seq<Op>>)
    requires Inv(s) && e in s.evs && 0 < s.cell.n < 0x1_0000 && script != []
    requires Calls(s, e, script).stop in {Done, Broke} && |Calls(s, e, script).calls| > 1
    ensures var s2 := Run(Calling(s, e), script[0]);
            && Inv(s2) && e in s2.evs && s2.cell.n == s.cell.n - 1 && s2.cell.running == s.cell.running && s2.cell.pass == s.cell.pass
            && s2.evs[e].pncalls == (if Renewed(script[0], e) then 0 else s.evs[e].pncalls)
            && Calls(s, e, script).calls == [e] + Calls(s2, e, script[1..]).calls
            && Calls(s, e, script).stop == Calls(s2, e, script[1..]).stop
  {
    hide Inv, Obeys, Run, SomeStops, SomeWild, Renewed;
    var s1 := Calling(s, e);
    CallingInv(s, e);
    CallingCell(s, e);
    RunInv(s1, script[0]);
    RunKeeps(s1, script[0]);
    RunCell(s1, script[0]);
    RunCounts(s1, script[0], e);
    CallsNone(Run(s1, script[0]), e, script[1..]);
  }

  lemma {:induction false} CallDeletes(s: State, e: Event, script: seq<seq<Op>>, i: nat, j: nat)
    requires Inv(s) && e in s.evs && i + 1 < s.cell.n < 0x1_0000 && s.cell.running && s.cell.pass > 0
    requires Calls(s, e, script).stop in {Done, Broke} && i < |Calls(s, e, script).calls|
    requires j < |script[i]| && script[i][j] == EventDel(e)
    ensures var at := Run(At(s, e, script, i), script[i][..j]);
            var stops := s.evs[e].pncalls == s.cell.pass && !RenewedBy(script[..i], e) && !Renewed(script[i][..j], e);
            && (StopsRepeats(at, EventDel(e)) <==> stops)
            && (!stops ==> Step(at, EventDel(e)).cell.n == at.cell.n)
            && (stops ==> |Calls(s, e, script).calls| == i + 1)
    decreases i
  {
    hide Inv, Obeys, Run, Step, StopsRepeats, Renewed, Calling;
    if i == 0 {
      assert Obeys(Calling(s, e), script[0]);
      FirstCallDeletes(s, e, script, j);
    } else {
      GoesOn(s, e, script);
      CallDeletes(Run(Calling(s, e), script[0]), e, script[1..], i - 1, j);
      assert script[..i][0] == script[0] && script[..i][1..] == script[1..][..i-1];
    }
  }

  /** While its calls are made an event deletes itself, in call `i`, at any point `j` of what
      that callback does, with calls left to come.  The event_del stops them exactly if no
      callback of the event has activated it again or set it up anew before, neither this one
      nor an earlier one; and if it does, call `i` was the last. */
  lemma SelfDeleteStopsExactly(s: State, q: nat, script: seq<seq<Op>>, i: nat, j: nat)
    requires Inv(s) && q < |s.active| && s.active[q] != [] && s.cell.running && s.cell.pass > 0
    requires var e := s.active[q][0];
             var o := Calls(Serve(s, e), e, script);
             && o.stop in {Done, Broke} && i < |o.calls| && i + 1 < Of(s, e).ncalls
             && j < |script[i]| && script[i][j] == EventDel(e)
    ensures var e := s.active[q][0];
            var at := Run(At(Serve(s, e), e, script, i), script[i][..j]);
            var stops := !RenewedBy(script[..i], e) && !Renewed(script[i][..j], e);
            && (StopsRepeats(at, EventDel(e)) <==> stops)
            && (!stops ==> Step(at, EventDel(e)).cell.n == at.cell.n)
            && (stops ==> |Calls(Serve(s, e), e, script).calls| == i + 1)
  {
    hide Inv, Calls, Serve, Run, Step, StopsRepeats, Renewed, RenewedBy;
    var e := s.active[q][0];
    ServeInv(s, q);
    CallDeletes(Serve(s, e), e, script, i, j);
  }

  /** Repeats whose callbacks do nothing. */
  lemma {:induction false} IdleRepeats(s: State, e: Event, script: seq<seq<Op>>)
    requires e in s.evs && !s.broken && 0 <= s.cell.n <= |script| && forall i | 0 <= i < s.cell.n :: script[i] == []
    ensures var o := Calls(s, e, script);
            && o.stop == Done && |o.calls| == s.cell.n && o.s.evs.Keys == s.evs.Keys && Of(o.s, e).flags == s.evs[e].flags
    decreases |script|
  {
    if s.cell.n > 0 {
      IdleRepeats(Calling(s, e), e, script[1..]);
    }
  }

  /** A callback that activates its event and then deletes it gets all its calls. */
  lemma ReactivatedGoesOn(s: State, e: Event, res: set<What>, n: int, script: seq<seq<Op>>)
    requires Inv(s) && e in s.evs && e != s.sigEvent && Active !in s.evs[e].flags && !s.broken
    requires 1 < s.cell.n < 0x1_0000 && s.cell.n <= |script|
    requires script[0] == [EventActive(e, res, n), EventDel(e)] && forall i | 1 <= i < s.cell.n :: script[i] == []
    ensures Obeys(Calling(s, e), script[0])
    ensures Calls(s, e, script).stop == Done && |Calls(s, e, script).calls| == s.cell.n
  {
    hide Inv, Del, MakeActive, Run, Obeys;
    var s1 := Calling(s, e);
    CallingInv(s, e);
    CallingCell(s, e);
    RunTwo(s1, EventActive(e, res, n), EventDel(e));
    ActivatedThenDeleted(s1, e, res, n);
    IdleRepeats(Run(s1, script[0]), e, script[1..]);
  }

  lemma ActivatedThenDeleted(s: State, e: Event, res: set<What>, n: int)
    requires Inv(s) && e in s.evs && e != s.sigEvent && Active !in s.evs[e].flags
    ensures var s1, s' := MakeActive(s, e, res, n), Del(MakeActive(s, e, res, n), e).0;
            && s'.cell == s.cell && s'.broken == s.broken && s'.evs.Keys == s.evs.Keys
            && s1.sigEvent == s.sigEvent && s1.evs.Keys == s.evs.Keys
  {
    hide Inv, Del, MakeActive;
    var s1 := MakeActive(s, e, res, n);
    MadeActive(s, e, res, n);
    MakeActiveInv(s, e, res, n);
    CoreOf(s1);
    DelEffect(s1, e);
    DelBackend(s1, e);
  }

  lemma MadeActive(s: State, e: Event, res: set<What>, n: int)
    requires e in s.evs && Active !in s.evs[e].flags
    ensures var s' := MakeActive(s, e, res, n);
            && s'.cell == s.cell && s'.broken == s.broken && s'.evs.Keys == s.evs.Keys && s'.sigEvent == s.sigEvent
            && Of(s', e).pncalls == 0 && Of(s', e).ncalls == Short(n) && Active in Of(s', e).flags
  {
  }

  lemma RunTwo(s: State, a: Op, b: Op)
    ensures Run(s, [a, b]) == Step(Step(s, a), b)
    ensures Obeys(s, [a, b]) <==> Permitted(s, a) && Permitted(Step(s, a), b)
  {
    hide Step, Permitted;
    RunOne(Step(s, a), b);
    assert [a, b][1..] == [b];
  }

  lemma RunOne(s: State, a: Op)
    ensures Run(s, [a]) == Step(s, a)
    ensures Obeys(s, [a]) <==> Permitted(s, a)
  {
    hide Step, Permitted;
    assert [a][1..] == [];
  }

  // ----- a callback that activates its own event -----

  /** The calls that can take an event off its active queue. */
  predicate Removes(op: Op, e: Event) {
    (op.EventDel? || op.EventAdd?) && op.e == e
  }

  predicate RemovedIn(ops: seq<Op>, e: Event) {
    ops != [] && (Removes(ops[0], e) || RemovedIn(ops[1..], e))
  }

  lemma StepStaysActive(s: State, op: Op, e: Event)
    requires Inv(s) && Permitted(s, op) && e in s.evs && Active in s.evs[e].flags && !Removes(op, e)
    ensures var ev' := Of(Step(s, op), e); Active in ev'.flags && ev'.ncalls == s.evs[e].ncalls && ev'.pri == s.evs[e].pri
  {
    hide Inv, Add, Del, AddOk;
    match op {
      case Attach(x, _, _) => IdleFlags(s, x);
      case EventAdd(x, tv, env) => AddChanges(s, x, tv, env);
      case EventDel(x) => CoreOf(s); DelEffect(s, x);
      case _ =>
    }
  }

  lemma {:induction false} RunStaysActive(s: State, ops: seq<Op>, e: Event)
    requires Inv(s) && Obeys(s, ops) && e in s.evs && Active in s.evs[e].flags && !RemovedIn(ops, e)
    ensures var ev' := Of(Run(s, ops), e); Active in ev'.flags && ev'.ncalls == s.evs[e].ncalls && ev'.pri == s.evs[e].pri
    decreases |ops|
  {
    hide Inv, Step, Permitted, Removes;
    if ops != [] {
      StepStaysActive(s, ops[0], e);
      StepInv(s, ops[0]);
      StepKeeps(s, ops[0]);
      RunStaysActive(Step(s, ops[0]), ops[1..], e);
    }
  }

  lemma {:induction false} RunSplit(s: State, ops: seq<Op>, j: nat)
    requires Inv(s) && Obeys(s, ops) && j <= |ops|
    ensures Obeys(s, ops[..j]) && Inv(Run(s, ops[..j])) && Obeys(Run(s, ops[..j]), ops[j..])
    ensures Run(s, ops) == Run(Run(s, ops[..j]), ops[j..])
    decreases j
  {
    hide Inv, Step, Permitted, Run, Obeys;
    if j == 0 {
      RunNone(s);
      assert ops[..0] == [] && ops[0..] == ops;
    } else {
      FirstStep(s, ops);
      RunSplit(Step(s, ops[0]), ops[1..], j - 1);
      FirstSteps(s, ops, j);
      assert ops[j..] == ops[1..][j-1..];
    }
  }

  lemma RunNone(s: State)
    ensures Run(s, []) == s && Obeys(s, [])
  {
  }

  lemma FirstSteps(s: State, ops: seq<Op>, j: nat)
    requires 0 < j <= |ops|
    ensures Run(s, ops[..j]) == Run(Step(s, ops[0]), ops[1..][..j-1])
    ensures Obeys(s, ops[..j]) <==> Permitted(s, ops[0]) && Obeys(Step(s, ops[0]), ops[1..][..j-1])
  {
    hide Inv, Step, Permitted;
    assert ops[..j][0] == ops[0] && ops[..j][1..] == ops[1..][..j-1];
  }

  /** A call makes an idle event active and nothing takes it back: its count is the new one. */
  lemma RunActivates(s: State, ops: seq<Op>, j: nat, e: Event)
    requires Inv(s) && Obeys(s, ops) && e in s.evs && j < |ops| && ops[j].EventActive? && ops[j].e == e
    requires Active !in Of(Run(s, ops[..j]), e).flags && !RemovedIn(ops[j+1..], e)
    ensures var ev' := Of(Run(s, ops), e); Active in ev'.flags && ev'.ncalls == Short(ops[j].ncalls)
  {
    hide Inv, Run, Obeys, MakeActive, Step, Permitted;
    RunSplit(s, ops, j);
    var s1 := Run(s, ops[..j]);
    RunKeeps(s, ops[..j]);
    FirstStep(s1, ops[j..]);
    assert ops[j..][1..] == ops[j+1..];
    Activates(s1, ops[j], e);
    RunStaysActive(Step(s1, ops[j]), ops[j+1..], e);
  }

  lemma FirstStep(s: State, ops: seq<Op>)
    requires Inv(s) && Obeys(s, ops) && ops != []
    ensures Permitted(s, ops[0]) && Inv(Step(s, ops[0])) && Obeys(Step(s, ops[0]), ops[1..])
    ensures Run(s, ops) == Run(Step(s, ops[0]), ops[1..])
  {
    hide Inv, Step, Permitted;
    StepInv(s, ops[0]);
  }

  lemma Activates(s: State, op: Op, e: Event)
    requires e in s.evs && op.EventActive? && op.e == e && Active !in s.evs[e].flags
    ensures var s' := Step(s, op);
            e in s'.evs && Active in s'.evs[e].flags && s'.evs[e].ncalls == Short(op.ncalls)
  {
    MadeActive(s, e, op.res, op.ncalls);
  }

  predicate RemovedBy(script: seq<seq<Op>>, e: Event) {
    script != [] && (RemovedIn(script[0], e) || RemovedBy(script[1..], e))
  }

  /** Repeats of an event that is active all along: the counter overwrites its count. */
  lemma {:induction false} CallsStayActive(s: State, e: Event, script: seq<seq<Op>>)
    requires Inv(s) && e in s.evs && Active in s.evs[e].flags && 0 <= s.cell.n < 0x1_0000
    requires Calls(s, e, script).stop in {Done, Broke}
    requires !RemovedBy(script[..|Calls(s, e, script).calls|], e)
    ensures var o := Calls(s, e, script);
            && Active in Of(o.s, e).flags
            && Of(o.s, e).ncalls == if o.calls == [] then s.evs[e].ncalls else s.cell.n - |o.calls|
    decreases |script|
  {
    hide Inv, Obeys, Run, SomeStops, SomeWild, RemovedIn;
    if s.cell.n != 0 {
      var s1 := Calling(s, e);
      CallingInv(s, e);
      CallingCell(s, e);
      ByFirst(script, |Calls(s, e, script).calls|, e);
      RunStaysActive(s1, script[0], e);
      RunInv(s1, script[0]);
      RunKeeps(s1, script[0]);
      RunCell(s1, script[0]);
      var s2 := Run(s1, script[0]);
      if !s2.broken {
        CallsExactly(s2, e, script[1..]);
        CallsNone(s2, e, script[1..]);
        CallsStayActive(s2, e, script[1..]);
      }
    }
  }

  lemma ByFirst(script: seq<seq<Op>>, n: nat, e: Event)
    requires 0 < n <= |script| && !RemovedBy(script[..n], e)
    ensures !RemovedIn(script[0], e) && !RemovedBy(script[1..][..n-1], e)
  {
    assert script[..n][0] == script[0] && script[..n][1..] == script[1..][..n-1];
  }

  /** Whatever else its callbacks do: if call `i` of an event makes it active again and nothing
      takes it back, the count it is given survives if no call follows, and is else what
      remained of the counter after the last call, so that an event that got all its calls
      is left with none to come. */
  lemma {:induction false} ActivationCount(s: State, e: Event, script: seq<seq<Op>>, i: nat, j: nat)
    requires Inv(s) && e in s.evs && 0 <= s.cell.n < 0x1_0000 && Calls(s, e, script).stop in {Done, Broke}
    requires i < |Calls(s, e, script).calls| && j < |script[i]| && script[i][j].EventActive? && script[i][j].e == e
    requires Active !in Of(Run(At(s, e, script, i), script[i][..j]), e).flags
    requires !RemovedIn(script[i][j+1..], e) && !RemovedBy(script[i+1..|Calls(s, e, script).calls|], e)
    ensures var o := Calls(s, e, script);
            && Active in Of(o.s, e).flags
            && Of(o.s, e).ncalls == if i == |o.calls| - 1 then Short(script[i][j].ncalls) else s.cell.n - |o.calls|
    decreases |script|
  {
    hide Inv, Obeys, Run, SomeStops, SomeWild, RemovedIn, RemovedBy, Calling;
    var s1, n := Calling(s, e), |Calls(s, e, script).calls|;
    CallingInv(s, e);
    CallingCell(s, e);
    RunInv(s1, script[0]);
    RunKeeps(s1, script[0]);
    RunCell(s1, script[0]);
    var s2 := Run(s1, script[0]);
    LaterCalls(script, i, n);
    if i == 0 {
      RunActivates(s1, script[0], j, e);
      if !s2.broken {
        CallsExactly(s2, e, script[1..]);
        CallsStayActive(s2, e, script[1..]);
      }
    } else {
      ActivationCount(s2, e, script[1..], i - 1, j);
    }
  }

  lemma LaterCalls(script: seq<seq<Op>>, i: nat, n: nat)
    requires i < n <= |script|
    ensures script[i+1..n] == script[1..][i..n-1]
    ensures script[1..n] == script[1..][..n-1]
  {
  }

  /** An event without calls to come is served, but not called. */
  lemma NoCallsDue(s: State, q: nat, script: seq<seq<Op>>)
    requires Inv(s) && q < |s.active| && s.active[q] != [] && Of(s, s.active[q][0]).ncalls == 0
    ensures var e := s.active[q][0];
            Serving(s, e, script) == Served(e, 0, 0, []) && Calls(Serve(s, e), e, script).stop == Done
  {
    hide Inv, Serve, Calls;
    ServeInv(s, q);
    CallsNone(Serve(s, s.active[q][0]), s.active[q][0], script);
    assert script[..0] == [];
  }

  // ----- events left with calls to cancel -----

  /** The repeats of `e` leave every other event's pointer and count alone, unless a callback
      renews it, and `e` with what remained of the counter. */
  lemma {:induction false} CallsCounts(s: State, e: Event, script: seq<seq<Op>>, x: Event)
    requires Inv(s) && e in s.evs && 0 <= s.cell.n < 0x1_0000 && Calls(s, e, script).stop in {Done, Broke}
    ensures var o := Calls(s, e, script);
            var renewed := RenewedBy(script[..|o.calls|], x);
            && Of(o.s, x).pncalls == (if renewed then 0 else Of(s, x).pncalls)
            && (!renewed ==> Of(o.s, x).ncalls == if x == e && o.calls != [] then s.cell.n - |o.calls| else Of(s, x).ncalls)
    decreases |script|
  {
    hide Inv, Obeys, Run, SomeStops, SomeWild, Renewed;
    if s.cell.n != 0 {
      var s1, n := Calling(s, e), |Calls(s, e, script).calls|;
      assert script[..n][0] == script[0] && script[..n][1..] == script[1..][..n-1];
      CallingInv(s, e);
      CallingCell(s, e);
      RunCounts(s1, script[0], x);
      RunInv(s1, script[0]);
      RunKeeps(s1, script[0]);
      RunCell(s1, script[0]);
      var s2 := Run(s1, script[0]);
      if !s2.broken {
        CallsExactly(s2, e, script[1..]);
        CallsNone(s2, e, script[1..]);
        CallsCounts(s2, e, script[1..], x);
      }
    } else {
      assert script[..0] == [];
    }
  }

  /** Whether `x` has calls left to cancel once the events in `log` have been served: its
      repeats were cut short, or it had calls left before and was not served; and no callback
      has activated it or set it up since. */
  predicate LeftOver(before: bool, x: Event, log: seq<Served>)
    decreases |log|
  {
    if log == [] then before
    else LeftOver((if log[0].e == x then log[0].made < log[0].due else before) && !RenewedBy(log[0].script, x), x, log[1..])
  }

  lemma ServedLeftOver(s: State, q: nat, script: seq<seq<Op>>, x: Event)
    requires Inv(s) && q < |s.active| && s.active[q] != [] && s.cell.pass > 0
    requires Calls(Serve(s, s.active[q][0]), s.active[q][0], script).stop in {Done, Broke}
    ensures var e := s.active[q][0];
            var o, sv := Calls(Serve(s, e), e, script), Serving(s, e, script);
            && sv.e == e
            && (Cancels(Of(o.s, x)) <==> (if e == x then sv.made < sv.due else Cancels(Of(s, x))) && !RenewedBy(sv.script, x))
  {
    hide Inv, Serve, Calls;
    var e := s.active[q][0];
    ServeInv(s, q);
    CallsCounts(Serve(s, e), e, script, x);
    CallsExactly(Serve(s, e), e, script);
  }

  lemma {:induction false} PassLeftOver(s: State, q: nat, script: seq<seq<Op>>, x: Event)
    requires Inv(s) && q < |s.active| && s.cell.pass > 0 && Pass(s, q, script).stop in {Done, Broke}
    ensures var o := Pass(s, q, script); Cancels(Of(o.s, x)) <==> LeftOver(Cancels(Of(s, x)), x, o.log)
    ensures Pass(s, q, script).s.cell.pass == s.cell.pass && Pass(s, q, script).s.cell.running == s.cell.running
    decreases |script|, |ListAt(s.active, q)|
  {
    hide Inv, Calls, Serve, Serving, Cancels;
    if s.active[q] != [] {
      var e := s.active[q][0];
      ServeInv(s, q);
      CallsInv(Serve(s, e), e, script);
      CallsNone(Serve(s, e), e, script);
      CallsCell(Serve(s, e), e, script);
      var o := Calls(Serve(s, e), e, script);
      ServedLeftOver(s, q, script, x);
      if o.stop == Done {
        PassLeftOver(o.s, q, o.rest, x);
        var log := Pass(o.s, q, o.rest).log;
        assert ([Serving(s, e, script)] + log)[1..] == log;
      } else {
        assert [Serving(s, e, script)][1..] == [];
      }
    }
  }

  lemma {:induction false} CallsCell(s: State, e: Event, script: seq<seq<Op>>)
    requires Inv(s) && e in s.evs && 0 <= s.cell.n < 0x1_0000
    ensures Calls(s, e, script).s.cell.pass == s.cell.pass && Calls(s, e, script).s.cell.running == s.cell.running
    decreases |script|
  {
    hide Inv, Obeys, Run, SomeStops, SomeWild, Calling;
    if s.cell.n != 0 && script != [] {
      var s1 := Calling(s, e);
      CallingInv(s, e);
      CallingCell(s, e);
      if Obeys(s1, script[0]) {
        RunInv(s1, script[0]);
        RunKeeps(s1, script[0]);
        RunCell(s1, script[0]);
        CallsCell(Run(s1, script[0]), e, script[1..]);
      }
    }
  }

  /** Once event_process_active has returned, exactly these events are stale: those whose
      repeats it cut short, because a callback stopped them or broke the loop, and those
      that were stale before and were not served; in both cases unless a callback has
      activated them or set them up since. */
  lemma StaleAfterPass(s: State, script: seq<seq<Op>>, x: Event)
    requires Inv(s) && !s.cell.running && FirstQueue(s.active) < |s.active| && Processed(s, script).stop in {Done, Broke}
    ensures var o := Processed(s, script); Stale(o.s, x) <==> LeftOver(Stale(s, x), x, o.log)
  {
    hide Inv, Pass, FirstQueue;
    BegunInv(s);
    PassLeftOver(Begun(s), FirstQueue(s.active), script, x);
  }

  // ----- writes to a counter that is gone -----

  ghost function StaleSet(s: State): set<Event> {
    set x | x in s.evs && Stale(s, x)
  }

  /** What is left of a set of stale events after a call, and after several. */
  function Spared(stale: set<Event>, op: Op): set<Event> {
    if op.EventActive? || op.Attach? then stale - {op.e} else stale
  }

  function SparedIn(stale: set<Event>, ops: seq<Op>): set<Event>
    decreases |ops|
  {
    if ops == [] then stale else SparedIn(Spared(stale, ops[0]), ops[1..])
  }

  /** A call deletes an event that is still stale then. */
  predicate DeletesStale(stale: set<Event>, ops: seq<Op>)
    decreases |ops|
  {
    ops != [] && ((ops[0].EventDel? && ops[0].e in stale) || DeletesStale(Spared(stale, ops[0]), ops[1..]))
  }

  lemma StepStale(s: State, op: Op)
    requires Inv(s) && Permitted(s, op)
    ensures StaleSet(Step(s, op)) == Spared(StaleSet(s), op)
    ensures WritesWild(s, op) <==> op.EventDel? && op.e in StaleSet(s)
  {
    hide Inv, Step, StopsRepeats;
    forall x ensures x in StaleSet(Step(s, op)) <==> x in Spared(StaleSet(s), op) {
      StepCounts(s, op, x);
      StepCell(s, op);
      StepKeeps(s, op);
    }
    assert StaleSet(Step(s, op)) == Spared(StaleSet(s), op);
    DelKnown(s, op);
  }

  lemma DelKnown(s: State, op: Op)
    requires Permitted(s, op)
    ensures op.EventDel? ==> op.e in s.evs
  {
  }

  lemma {:induction false} RunStale(s: State, ops: seq<Op>)
    requires Inv(s) && Obeys(s, ops)
    ensures StaleSet(Run(s, ops)) == SparedIn(StaleSet(s), ops)
    ensures SomeWild(s, ops) <==> DeletesStale(StaleSet(s), ops)
    decreases |ops|
  {
    hide Inv, Step, Permitted, WritesWild, StaleSet, Spared;
    if ops != [] {
      StepStale(s, ops[0]);
      StepInv(s, ops[0]);
      RunStale(Step(s, ops[0]), ops[1..]);
    }
  }

  function SparedBy(stale: set<Event>, script: seq<seq<Op>>): set<Event>
    decreases |script|
  {
    if script == [] then stale else SparedBy(SparedIn(stale, script[0]), script[1..])
  }

  predicate DeletesStaleBy(stale: set<Event>, script: seq<seq<Op>>)
    decreases |script|
  {
    script != [] && (DeletesStale(stale, script[0]) || DeletesStaleBy(SparedIn(stale, script[0]), script[1..]))
  }

  /** The event being served points at the counter of its own pass, or nowhere. */
  ghost predicate Attended(s: State, e: Event) {
    s.cell.running && (Of(s, e).pncalls == 0 || Of(s, e).pncalls == s.cell.pass)
  }

  lemma CallingStale(s: State, e: Event)
    requires e in s.evs && Attended(s, e)
    ensures StaleSet(Calling(s, e)) == StaleSet(s) && Attended(Calling(s, e), e)
  {
  }

  lemma RunAttended(s: State, e: Event, ops: seq<Op>)
    requires Inv(s) && Obeys(s, ops) && Attended(s, e)
    ensures Attended(Run(s, ops), e)
  {
    hide Inv, Obeys, Run, Renewed;
    RunCounts(s, ops, e);
    RunCell(s, ops);
  }

  lemma {:induction false} CallsStale(s: State, e: Event, script: seq<seq<Op>>)
    requires Inv(s) && e in s.evs && 0 <= s.cell.n < 0x1_0000 && Attended(s, e) && Calls(s, e, script).stop in {Done, Broke}
    ensures var o := Calls(s, e, script);
            && StaleSet(o.s) == SparedBy(StaleSet(s), script[..|o.calls|])
            && (o.s.cell.wild <==> s.cell.wild || DeletesStaleBy(StaleSet(s), script[..|o.calls|]))
    decreases |script|
  {
    hide Inv, Obeys, Run, SomeStops, SomeWild, StaleSet, Attended, SparedIn, DeletesStale;
    if s.cell.n != 0 {
      var s1, n := Calling(s, e), |Calls(s, e, script).calls|;
      assert script[..n][0] == script[0] && script[..n][1..] == script[1..][..n-1];
      CallingInv(s, e);
      CallingCell(s, e);
      CallingStale(s, e);
      RunStale(s1, script[0]);
      RunInv(s1, script[0]);
      RunKeeps(s1, script[0]);
      RunCell(s1, script[0]);
      RunAttended(s1, e, script[0]);
      var s2 := Run(s1, script[0]);
      if !s2.broken {
        CallsStale(s2, e, script[1..]);
      } else {
        assert n == 1 && script[1..][..0] == [];
      }
    } else {
      assert script[..0] == [];
    }
  }

  /** The callbacks of the events in `log` delete an event that was stale before them all and
      has not been renewed since. */
  predicate LogDeletesStale(stale: set<Event>, log: seq<Served>)
    decreases |log|
  {
    log != [] && (DeletesStaleBy(stale, log[0].script) || LogDeletesStale(SparedBy(stale, log[0].script), log[1..]))
  }

  lemma ServeStale(s: State, q: nat)
    requires Inv(s) && q < |s.active| && s.active[q] != [] && s.cell.running
    ensures var e := s.active[q][0];
            StaleSet(Serve(s, e)) == StaleSet(s) && Attended(Serve(s, e), e) && Serve(s, e).cell.wild == s.cell.wild
  {
    hide Inv, Serve;
    ServeInv(s, q);
    HeadOfQueue(s, q);
  }

  lemma {:induction false} PassStale(s: State, q: nat, script: seq<seq<Op>>)
    requires Inv(s) && q < |s.active| && s.cell.running && Pass(s, q, script).stop in {Done, Broke}
    ensures var o := Pass(s, q, script); o.s.cell.wild <==> s.cell.wild || LogDeletesStale(StaleSet(s), o.log)
    decreases |script|, |ListAt(s.active, q)|
  {
    hide Inv, Calls, Serve, StaleSet, DeletesStaleBy, SparedBy;
    if s.active[q] != [] {
      var e := s.active[q][0];
      ServeInv(s, q);
      ServeStale(s, q);
      CallsInv(Serve(s, e), e, script);
      CallsNone(Serve(s, e), e, script);
      CallsCell(Serve(s, e), e, script);
      CallsStale(Serve(s, e), e, script);
      var o, sv := Calls(Serve(s, e), e, script), Serving(s, e, script);
      if o.stop == Done {
        PassStale(o.s, q, o.rest);
        var log := Pass(o.s, q, o.rest).log;
        assert ([sv] + log)[1..] == log;
      } else {
        assert [sv][1..] == [];
      }
    }
  }

  /** event_process_active writes through a dangling ev_pncalls exactly if a callback deletes
      an event that was stale when the pass began and has not been renewed since: every other
      write hits the counter of this pass. */
  lemma WildInPass(s: State, script: seq<seq<Op>>)
    requires Inv(s) && !s.cell.running && FirstQueue(s.active) < |s.active| && Processed(s, script).stop in {Done, Broke}
    ensures var o := Processed(s, script); o.s.cell.wild <==> s.cell.wild || LogDeletesStale(StaleSet(s), o.log)
  {
    hide Inv, Pass, FirstQueue, LogDeletesStale;
    BegunInv(s);
    forall x ensures x in StaleSet(Begun(s)) <==> x in StaleSet(s) {
      if x in s.evs { ActiveUnpointed(s, x); }
    }
    assert StaleSet(Begun(s)) == StaleSet(s);
    PassStale(Begun(s), FirstQueue(s.active), script);
  }

  /** And a program that is not in a callback, exactly if it does that. */
  lemma WildInProgram(s: State, ops: seq<Op>)
    requires Inv(s) && Obeys(s, ops)
    ensures Run(s, ops).cell.wild <==> s.cell.wild || DeletesStale(StaleSet(s), ops)
  {
    hide Inv, Obeys, Run, DeletesStale, StaleSet, SomeWild;
    RunCell(s, ops);
    RunStale(s, ops);
  }

  // ----- the calls of a whole pass -----

  function Repeated(e: Event, n: nat): seq<Event> {
    seq(n, i => e)
  }

  function AllCalls(log: seq<Served>): seq<Event> {
    if log == [] then [] else Repeated(log[0].e, log[0].made) + AllCalls(log[1..])
  }

  /** The events that point at the counter of the pass under way. */
  ghost predicate PointsHere(s: State, x: Event) {
    s.cell.pass > 0 && Of(s, x).pncalls == s.cell.pass
  }

  predicate DeletesAny(script: seq<seq<Op>>, targets: set<Event>) {
    exists i, j | 0 <= i < |script| && 0 <= j < |script[i]| :: script[i][j].EventDel? && script[i][j].e in targets
  }

  predicate DeletesIn(ops: seq<Op>, targets: set<Event>) {
    exists j | 0 <= j < |ops| :: ops[j].EventDel? && ops[j].e in targets
  }

  lemma {:induction false} RunUndisturbed(s: State, ops: seq<Op>, targets: set<Event>)
    requires Inv(s) && Obeys(s, ops) && s.cell.pass > 0
    requires (forall x :: PointsHere(s, x) ==> x in targets) && !DeletesIn(ops, targets)
    ensures !SomeStops(s, ops) && forall x :: PointsHere(Run(s, ops), x) ==> x in targets
    decreases |ops|
  {
    hide Inv, Step, Permitted, WritesWild;
    if ops != [] {
      StepInv(s, ops[0]);
      StepCell(s, ops[0]);
      forall x ensures PointsHere(Step(s, ops[0]), x) ==> x in targets {
        StepCounts(s, ops[0], x);
      }
      assert forall j | 0 <= j < |ops[1..]| :: ops[1..][j] == ops[j+1];
      RunUndisturbed(Step(s, ops[0]), ops[1..], targets);
    }
  }

  lemma {:induction false} CallsUndisturbed(s: State, e: Event, script: seq<seq<Op>>, targets: set<Event>)
    requires Inv(s) && e in s.evs && 0 <= s.cell.n < 0x1_0000 && s.cell.pass > 0 && Calls(s, e, script).stop == Done
    requires (forall x :: PointsHere(s, x) ==> x in targets) && !DeletesAny(script, targets)
    ensures var o := Calls(s, e, script);
            |o.calls| == s.cell.n && (forall x :: PointsHere(o.s, x) ==> x in targets) && !DeletesAny(o.rest, targets)
    decreases |script|
  {
    hide Inv, Obeys, Run, SomeStops, SomeWild;
    if s.cell.n != 0 {
      var s1 := Calling(s, e);
      CallingInv(s, e);
      CallingCell(s, e);
      assert !DeletesIn(script[0], targets);
      assert forall i | 0 <= i < |script[1..]| :: script[1..][i] == script[i+1];
      RunUndisturbed(s1, script[0], targets);
      RunInv(s1, script[0]);
      RunKeeps(s1, script[0]);
      RunCell(s1, script[0]);
      CallsUndisturbed(Run(s1, script[0]), e, script[1..], targets);
    }
  }

  lemma ServePoints(s: State, q: nat)
    requires Inv(s) && q < |s.active| && s.active[q] != []
    ensures var e := s.active[q][0]; forall x :: PointsHere(Serve(s, e), x) ==> PointsHere(s, x) || x == e
  {
    hide Inv, Serve;
    ServeInv(s, q);
  }

  lemma CallsAre(s: State, e: Event, script: seq<seq<Op>>)
    requires Inv(s) && e in s.evs && 0 <= s.cell.n < 0x1_0000
    ensures Calls(s, e, script).calls == Repeated(e, |Calls(s, e, script).calls|)
  {
    hide Inv, Calls;
    CallsExactly(s, e, script);
  }

  /** The calls of a pass, one after the other, are those of the events it served, each as
      often as the event was called. */
  lemma {:induction false} PassCalls(s: State, q: nat, script: seq<seq<Op>>)
    requires Inv(s) && q < |s.active|
    ensures Pass(s, q, script).calls == AllCalls(Pass(s, q, script).log)
    decreases |script|, |ListAt(s.active, q)|
  {
    hide Inv, Calls, Serve, Repeated;
    if s.active[q] != [] {
      var e := s.active[q][0];
      ServeInv(s, q);
      CallsInv(Serve(s, e), e, script);
      CallsNone(Serve(s, e), e, script);
      CallsAre(Serve(s, e), e, script);
      var o, sv := Calls(Serve(s, e), e, script), Serving(s, e, script);
      assert [sv][1..] == [];
      if o.stop == Done {
        PassCalls(o.s, q, o.rest);
        assert ([sv] + Pass(o.s, q, o.rest).log)[1..] == Pass(o.s, q, o.rest).log;
      }
    }
  }

  /** If no callback deletes an event the pass serves, each of them gets every call it is due. */
  lemma {:induction false} PassUndisturbed(s: State, q: nat, script: seq<seq<Op>>, targets: set<Event>)
    requires Inv(s) && q < |s.active| && s.cell.pass > 0 && Pass(s, q, script).stop == Done
    requires (forall x :: PointsHere(s, x) ==> x in targets) && (forall x | x in Heads(Pass(s, q, script).log) :: x in targets)
    requires !DeletesAny(script, targets)
    ensures forall i | 0 <= i < |Pass(s, q, script).log| :: Pass(s, q, script).log[i].made == Pass(s, q, script).log[i].due
    decreases |script|, |ListAt(s.active, q)|
  {
    hide Inv, Calls, Serve, PointsHere, DeletesAny;
    if s.active[q] != [] {
      var e := s.active[q][0];
      ServeInv(s, q);
      ServePoints(s, q);
      CallsInv(Serve(s, e), e, script);
      CallsNone(Serve(s, e), e, script);
      CallsCell(Serve(s, e), e, script);
      var o, sv := Calls(Serve(s, e), e, script), Serving(s, e, script);
      HeadsCons(sv, Pass(o.s, q, o.rest).log);
      assert Heads(Pass(s, q, script).log)[0] == e;
      assert forall x | x in Heads(Pass(o.s, q, o.rest).log) :: x in Heads(Pass(s, q, script).log);
      CallsUndisturbed(Serve(s, e), e, script, targets);
      PassUndisturbed(o.s, q, o.rest, targets);
    }
  }

  /** event_process_active in full: if no callback deletes an event that is served, the calls
      are those of the events served, in their order, each as often as its ev_ncalls said. */
  lemma EveryCallMade(s: State, script: seq<seq<Op>>)
    requires Inv(s) && FirstQueue(s.active) < |s.active| && Processed(s, script).stop == Done
    requires !DeletesAny(script, set x | x in Heads(Processed(s, script).log))
    ensures var o := Processed(s, script);
            o.calls == AllCalls(o.log) && forall i | 0 <= i < |o.log| :: o.log[i].made == o.log[i].due
  {
    hide Inv, Pass, FirstQueue, DeletesAny;
    BegunInv(s);
    PassCalls(Begun(s), FirstQueue(s.active), script);
    forall x ensures !PointsHere(Begun(s), x) {
      if x in s.evs { ActiveUnpointed(s, x); }
    }
    PassUndisturbed(Begun(s), FirstQueue(s.active), script, set x | x in Heads(Processed(s, script).log));
  }

  // ----- event_base_loopbreak -----

  /** Only event_base_loopbreak sets the flag, and nothing that a callback can call clears it. */
  lemma StepBroken(s: State, op: Op)
    ensures Step(s, op).broken <==> s.broken || op.LoopBreak?
  {
    hide Add, Del;
    match op {
      case EventAdd(e, tv, env) => AddBroken(s, e, tv, env);
      case EventDel(e) => DelBroken(s, e);
      case _ =>
    }
  }

  lemma DelBroken(s: State, e: Event)
    ensures Del(s, e).0.broken == s.broken
  {
    hide PollDel, Without, Cancels, SetList, ListAt, Restore;
  }

  lemma AddBroken(s: State, e: Event, tv: Option<Timeval>, env: Env)
    ensures Add(s, e, tv, env).0.broken == s.broken
  {
    hide Insert, Schedule;
    var s0 := if tv.Some? && Timeout !in Of(s, e).flags then Reserved(s) else s;
    InsertBroken(s0, e, env);
    if tv.Some? { ScheduleBroken(Insert(s0, e, env).0, e, tv.value, env.now); }
  }

  lemma InsertBroken(s: State, e: Event, env: Env)
    ensures Insert(s, e, env).0.broken == s.broken
  {
    hide PollAdd, Install, Forget, SetList, ListAt, Wants;
  }

  lemma ScheduleBroken(s: State, e: Event, tv: Timeval, now: Timeval)
    ensures Schedule(s, e, tv, now).broken == s.broken
  {
    hide Without, Cancels, TimerAdd, SetList, ListAt;
  }

  lemma {:induction false} RunBroken(s: State, ops: seq<Op>)
    ensures Run(s, ops).broken <==> s.broken || LoopBreak in ops
    decreases |ops|
  {
    hide Step;
    if ops != [] {
      StepBroken(s, ops[0]);
      RunBroken(Step(s, ops[0]), ops[1..]);
    }
  }

  /** The callbacks up to number `n` run in turn, and the loop is broken by the last of them
      or not at all. */
  predicate BreaksAtEnd(script: seq<seq<Op>>, n: nat, stop: Stop) {
    && n <= |script| && (forall i | 0 <= i < n - 1 :: LoopBreak !in script[i])
    && (n > 0 ==> (LoopBreak in script[n-1] <==> stop == Broke)) && (n == 0 ==> stop == Done)
  }

  lemma BreaksLater(script: seq<seq<Op>>, k: nat, n: nat, stop: Stop)
    requires k <= |script| && (forall i | 0 <= i < k :: LoopBreak !in script[i]) && BreaksAtEnd(script[k..], n, stop)
    ensures n > 0 || stop == Done ==> BreaksAtEnd(script, k + n, stop)
  {
    assert forall i | 0 <= i < n :: script[k..][i] == script[k+i];
  }

  lemma {:induction false} CallsBreak(s: State, e: Event, script: seq<seq<Op>>)
    requires !s.broken && Calls(s, e, script).stop in {Done, Broke}
    ensures var o := Calls(s, e, script);
            && BreaksAtEnd(script, |o.calls|, o.stop) && o.rest == script[|o.calls|..] && (o.stop == Done ==> !o.s.broken)
    decreases |script|
  {
    hide Run, Obeys, BreaksAtEnd;
    if s.cell.n == 0 {
      BreaksNone(script);
    } else {
      var s1 := Calling(s, e);
      RunBroken(s1, script[0]);
      var s2 := Run(s1, script[0]);
      if s2.broken {
        BreaksFirst(script);
      } else {
        CallsBreak(s2, e, script[1..]);
        BreaksLater(script, 1, |Calls(s2, e, script[1..]).calls|, Calls(s2, e, script[1..]).stop);
        BreaksNever(script[1..]);
        assert script[1..][|Calls(s2, e, script[1..]).calls|..] == script[|Calls(s, e, script).calls|..];
      }
    }
  }

  lemma BreaksNone(script: seq<seq<Op>>)
    ensures BreaksAtEnd(script, 0, Done) && script[0..] == script
  {
  }

  lemma BreaksNever(script: seq<seq<Op>>)
    ensures !BreaksAtEnd(script, 0, Broke)
  {
  }

  lemma BreaksFirst(script: seq<seq<Op>>)
    requires script != [] && LoopBreak in script[0]
    ensures BreaksAtEnd(script, 1, Broke)
  {
  }

  /** event_base_loopbreak lets the callback that calls it run to its end, and no other callback
      after it; without it the pass goes on to the end. */
  lemma {:induction false} LoopbreakEndsPass(s: State, q: nat, script: seq<seq<Op>>)
    requires Inv(s) && q < |s.active| && !s.broken && Pass(s, q, script).stop in {Done, Broke}
    ensures var o := Pass(s, q, script); BreaksAtEnd(script, |o.calls|, o.stop) && o.rest == script[|o.calls|..]
    decreases |script|, |ListAt(s.active, q)|
  {
    hide Inv, Calls, Serve, BreaksAtEnd;
    if s.active[q] == [] {
      BreaksNone(script);
    } else {
      var e := s.active[q][0];
      ServeInv(s, q);
      CallsInv(Serve(s, e), e, script);
      CallsNone(Serve(s, e), e, script);
      var o := Calls(Serve(s, e), e, script);
      CallsBreak(Serve(s, e), e, script);
      if o.stop == Done {
        LoopbreakEndsPass(o.s, q, o.rest);
        var o' := Pass(o.s, q, o.rest);
        NotBroken(script, |o.calls|);
        BreaksNever(o.rest);
        BreaksLater(script, |o.calls|, |o'.calls|, o'.stop);
        assert o.rest[|o'.calls|..] == script[|o.calls| + |o'.calls|..];
      }
    }
  }

  lemma NotBroken(script: seq<seq<Op>>, n: nat)
    requires BreaksAtEnd(script, n, Done)
    ensures n <= |script| && forall i | 0 <= i < n :: LoopBreak !in script[i]
  {
  }

  /** A callback that sets the priority of an idle event and activates it appends it to the
      queue of the new priority. */
  lemma CallbackMoves(s: State, e: Event, pri: int, res: set<What>, n: int)
    requires Inv(s) && e in s.evs && Active !in s.evs[e].flags && 0 <= pri < |s.active|
    ensures var s' := Run(s, [EventPriority(e, pri), EventActive(e, res, n)]);
            |s'.active| == |s.active| && s'.active[pri] == s.active[pri] + [e]
  {
    hide Inv, Run, PrioritySet, MakeActive;
    RunTwo(s, EventPriority(e, pri), EventActive(e, res, n));
    PriorityDecides(s, e, pri, res, n);
  }

  // ----- from the activation of an event to its calls -----

  lemma {:induction false} ByRest(script: seq<seq<Op>>, n: nat, e: Event)
    requires n <= |script| && !RemovedBy(script, e)
    ensures !RemovedBy(script[n..], e)
  {
    if n > 0 {
      ByRest(script[1..], n - 1, e);
      assert script[1..][n-1..] == script[n..];
    } else {
      assert script[0..] == script;
    }
  }

  /** While another event is called, one that waits on a queue keeps its place and its count,
      unless a callback deletes or re-adds it. */
  lemma {:induction false} CallsKeep(s: State, e: Event, script: seq<seq<Op>>, x: Event)
    requires Inv(s) && e in s.evs && x in s.evs && x != e && Active in s.evs[x].flags && 0 <= s.cell.n < 0x1_0000
    requires Calls(s, e, script).stop in {Done, Broke} && !RemovedBy(script, x)
    ensures var o := Calls(s, e, script);
            && x in o.s.evs && Active in o.s.evs[x].flags && o.s.evs[x].ncalls == s.evs[x].ncalls && o.s.evs[x].pri == s.evs[x].pri
            && !RemovedBy(o.rest, x)
    decreases |script|
  {
    hide Inv, Obeys, Run, SomeStops, SomeWild, RemovedIn;
    if s.cell.n != 0 {
      var s1 := Calling(s, e);
      CallingInv(s, e);
      CallingCell(s, e);
      RunStaysActive(s1, script[0], x);
      RunInv(s1, script[0]);
      RunKeeps(s1, script[0]);
      RunCell(s1, script[0]);
      var s2 := Run(s1, script[0]);
      if !s2.broken {
        CallsKeep(s2, e, script[1..], x);
      }
    }
  }

  /** Every event on the queue is served, with the count it has now, unless a callback
      deletes or re-adds it. */
  lemma {:induction false} PassServes(s: State, q: nat, script: seq<seq<Op>>, x: Event) returns (i: nat)
    requires Inv(s) && q < |s.active| && x in s.active[q] && Pass(s, q, script).stop == Done && !RemovedBy(script, x)
    ensures var log := Pass(s, q, script).log; i < |log| && log[i].e == x && log[i].due == Of(s, x).ncalls
    decreases |script|, |ListAt(s.active, q)|
  {
    hide Inv, Calls, Serve, RemovedBy;
    var e := s.active[q][0];
    ServeInv(s, q);
    CallsInv(Serve(s, e), e, script);
    CallsNone(Serve(s, e), e, script);
    if x == e {
      i := 0;
    } else {
      var s1, o := Serve(s, e), Calls(Serve(s, e), e, script);
      OnQueue(s, q, x);
      CallsKeep(s1, e, script, x);
      QueueOf(o.s, x);
      var k := PassServes(o.s, q, o.rest, x);
      i := k + 1;
    }
  }

  lemma OnQueue(s: State, q: nat, x: Event)
    requires Inv(s) && q < |s.active| && x in s.active[q]
    ensures x in s.evs && Active in s.evs[x].flags && s.evs[x].pri == q
  {
    hide Wired, Counts, InsertedList, TimerHeap;
  }

  lemma QueueOf(s: State, x: Event)
    requires Inv(s) && x in s.evs && Active in s.evs[x].flags
    ensures 0 <= s.evs[x].pri < |s.active| && x in s.active[s.evs[x].pri]
  {
    hide Wired, Counts, InsertedList, TimerHeap;
  }

  /** Active events of other priorities are left for later passes. */
  lemma {:induction false} PassLeaves(s: State, q: nat, script: seq<seq<Op>>, x: Event)
    requires Inv(s) && q < |s.active| && Pass(s, q, script).stop in {Done, Broke} && !RemovedBy(script, x)
    requires x in s.evs && Active in s.evs[x].flags && s.evs[x].pri != q
    ensures var s' := Pass(s, q, script).s;
            x in s'.evs && Active in s'.evs[x].flags && s'.evs[x].ncalls == s.evs[x].ncalls && s'.evs[x].pri == s.evs[x].pri
    decreases |script|, |ListAt(s.active, q)|
  {
    hide Inv, Calls, Serve, RemovedBy;
    if s.active[q] != [] {
      var e := s.active[q][0];
      ServeInv(s, q);
      OnQueue(s, q, e);
      CallsInv(Serve(s, e), e, script);
      CallsNone(Serve(s, e), e, script);
      var o := Calls(Serve(s, e), e, script);
      CallsKeep(Serve(s, e), e, script, x);
      if o.stop == Done {
        PassLeaves(o.s, q, o.rest, x);
      }
    }
  }

  /** What event_process_active does for one active event: on the queue that is served it gets
      exactly the calls its count says, unless callbacks take it or a served event off; on
      another it waits on. */
  lemma ActiveIsCalled(s: State, script: seq<seq<Op>>, x: Event) returns (i: nat)
    requires Inv(s) && FirstQueue(s.active) < |s.active| && Processed(s, script).stop == Done
    requires x in s.evs && Active in s.evs[x].flags && !RemovedBy(script, x)
    ensures var o := Processed(s, script);
            if s.evs[x].pri == FirstQueue(s.active) then
              && i < |o.log| && o.log[i].e == x && o.log[i].due == s.evs[x].ncalls
              && (!DeletesAny(script, set y | y in Heads(o.log)) ==> o.log[i].made == s.evs[x].ncalls)
            else
              && x in o.s.evs && Active in o.s.evs[x].flags && o.s.evs[x].ncalls == s.evs[x].ncalls
  {
    hide Inv, Pass, FirstQueue, DeletesAny, RemovedBy;
    i := 0;
    BegunInv(s);
    QueueOf(s, x);
    if s.evs[x].pri == FirstQueue(s.active) {
      i := PassServes(Begun(s), FirstQueue(s.active), script, x);
      if !DeletesAny(script, set y | y in Heads(Processed(s, script).log)) {
        EveryCallMade(s, script);
      }
    } else {
      PassLeaves(Begun(s), FirstQueue(s.active), script, x);
    }
  }

  /** An idle event that event_active gives n calls is called n times, when its turn comes. */
  lemma ActivatedIsCalled(s: State, e: Event, res: set<What>, n: int, script: seq<seq<Op>>) returns (i: nat)
    requires Inv(s) && e in s.evs && (e == s.sigEvent ==> s.sigAdded) && Active !in s.evs[e].flags && 0 <= n < 0x1_0000
    requires var s1 := MakeActive(s, e, res, n);
             && Inv(s1) && FirstQueue(s1.active) == s.evs[e].pri < |s1.active|
             && Processed(s1, script).stop == Done && !RemovedBy(script, e)
             && !DeletesAny(script, set y | y in Heads(Processed(s1, script).log))
    ensures var o := Processed(MakeActive(s, e, res, n), script);
            i < |o.log| && o.log[i].e == e && o.log[i].due == o.log[i].made == n
  {
    hide Inv, MakeActive, Processed, FirstQueue, DeletesAny, RemovedBy;
    CoreOf(s);
    ActiveEffect(s, e, res, n);
    i := ActiveIsCalled(MakeActive(s, e, res, n), script, e);
  }

  // ----- one event's deletion at another one's expense -----

  /** A callback whose one act is to delete an event that points at the counter of this pass. */
  lemma DeletingCall(s: State, e: Event, x: Event, rest: seq<seq<Op>>)
    requires Inv(s) && e in s.evs && x in s.evs && x != s.sigEvent && !s.broken && 0 < s.cell.n < 0x1_0000
    requires s.cell.running && s.cell.pass > 0 && Cancels(Of(Calling(s, e), x)) && Of(s, x).pncalls == s.cell.pass
    ensures var s' := Del(Calling(s, e), x).0;
            && Calls(s, e, [[EventDel(x)]] + rest) == Outcome(s', rest, [e], [], Done)
            && Inv(s') && !s'.broken && s'.cell == s.cell.(n := 0) && s'.sigEvent == s.sigEvent
            && s'.evs == s.evs[e := s.evs[e].(ncalls := s.cell.n - 1)][x :=
                 Of(Calling(s, e), x).(flags := s.evs[x].flags - QUEUES)]
            && s'.active == SetList(s.active, s.evs[x].pri, Without(ListAt(s.active, s.evs[x].pri), x))
  {
    hide Inv, Del, Run, Obeys, Without;
    var s1, script := Calling(s, e), [[EventDel(x)]] + rest;
    CallingInv(s, e);
    CallingCell(s, e);
    RunOne(s1, EventDel(x));
    CallingKeeps(s, e, x);
    CoreOf(s1);
    DelInv(s1, x);
    DelEffect(s1, x);
    DelBackend(s1, x);
    assert script[0] == [EventDel(x)] && script[1..] == rest;
    CallsNone(Del(s1, x).0, e, rest);
  }

  lemma CallingKeeps(s: State, e: Event, x: Event)
    requires e in s.evs && x in s.evs
    ensures var s1 := Calling(s, e);
            && s1.sigEvent == s.sigEvent && s1.active == s.active && s1.broken == s.broken && x in s1.evs
            && Of(s1, x).flags == s.evs[x].flags && Of(s1, x).pri == s.evs[x].pri && Of(s1, x).pncalls == s.evs[x].pncalls
            && s1.evs == s.evs[e := s.evs[e].(ncalls := s.cell.n - 1)]
  {
  }

  /** The head `e` of a queue is served, and deletes `x`, itself or an event served before. */
  lemma DeletingHead(s: State, q: nat, x: Event, rest: seq<seq<Op>>)
    requires Inv(s) && s.cell.running && s.cell.pass > 0 && !s.broken && q < |s.active| && s.active[q] != []
    requires x in s.evs && x != s.sigEvent && x !in s.active[q][1..] && Of(s, s.active[q][0]).ncalls > 1
    requires x == s.active[q][0] || (Of(s, x).pncalls == s.cell.pass && Of(s, x).ncalls != 0)
    ensures var e, script := s.active[q][0], [[EventDel(x)]] + rest;
            var o := Calls(Serve(s, e), e, script);
            && o.stop == Done && o.calls == [e] && o.rest == rest && Inv(o.s) && !o.s.broken
            && Serving(s, e, script) == Served(e, Of(s, e).ncalls, 1, [[EventDel(x)]])
            && o.s.evs.Keys == s.evs.Keys && o.s.sigEvent == s.sigEvent
            && o.s.cell.running && o.s.cell.pass == s.cell.pass
            && |o.s.active| == |s.active| && o.s.active[q] == s.active[q][1..]
            && (x == e ==> Of(o.s, e).pncalls == s.cell.pass && Of(o.s, e).ncalls == Of(s, e).ncalls - 1)
            && forall y | y in s.evs && y != e && y != x :: Of(o.s, y).ncalls == Of(s, y).ncalls
  {
    hide Inv, Serve, Calls, Without;
    var e, script := s.active[q][0], [[EventDel(x)]] + rest;
    HeadOfQueue(s, q);
    ServeInv(s, q);
    var s1 := Serve(s, e);
    DeletingCall(s1, e, x, rest);
    QueueWithout(s1.active, q, x, s1.evs[x].pri);
    assert script[..1] == [[EventDel(x)]];
  }

  /** Two events are active, and each is due more than one call.  The first deletes itself in
      its first call; the second deletes the first once more, and gets one call only. */
  lemma DeleteStealsCalls(s: State, q: nat, a: Event, b: Event)
    requires Inv(s) && s.cell.running && s.cell.pass > 0 && !s.broken && q < |s.active| && s.active[q] == [a, b]
    requires a != s.sigEvent && Of(s, a).ncalls > 1 && Of(s, b).ncalls > 1
    ensures var o := Pass(s, q, [[EventDel(a)], [EventDel(a)]]);
            && o.stop == Done && o.calls == [a, b]
            && o.log == [Served(a, Of(s, a).ncalls, 1, [[EventDel(a)]]), Served(b, Of(s, b).ncalls, 1, [[EventDel(a)]])]
  {
    hide Inv, Serve, Calls, Pass, Serving;
    var script: seq<seq<Op>> := [[EventDel(a)], [EventDel(a)]];
    HeadOfQueue(s, q);
    HeadNotInTail(s, q);
    QueueKnown(s, q, b);
    assert script == [[EventDel(a)]] + [[EventDel(a)]];
    DeletingHead(s, q, a, [[EventDel(a)]]);
    PassUnfold(s, q, script);
    var s2 := Calls(Serve(s, a), a, script).s;
    assert [[EventDel(a)]] == [[EventDel(a)]] + [];
    DeletingHead(s2, q, a, []);
    PassUnfold(s2, q, [[EventDel(a)]]);
    PassDone(Calls(Serve(s2, b), b, [[EventDel(a)]]).s, q, []);
  }

  lemma QueueKnown(s: State, q: nat, e: Event)
    requires Inv(s) && q < |s.active| && e in s.active[q]
    ensures e in s.evs
  {
    hide Wired, Counts, InsertedList, TimerHeap;
  }

  lemma QueueWithout(active: seq<seq<Event>>, q: nat, a: Event, pri: int)
    requires q < |active| && a !in active[q]
    ensures |SetList(active, pri, Without(ListAt(active, pri), a))| == |active|
    ensures SetList(active, pri, Without(ListAt(active, pri), a))[q] == active[q]
  {
    WithoutAbsent(active[q], a);
  }

  lemma PassDone(s: State, q: nat, script: seq<seq<Op>>)
    requires Inv(s) && q < |s.active| && s.active[q] == []
    ensures Pass(s, q, script) == Outcome(s, script, [], [], Done)
  {
  }

  lemma PassUnfold(s: State, q: nat, script: seq<seq<Op>>)
    requires Inv(s) && q < |s.active| && s.active[q] != [] && Calls(Serve(s, s.active[q][0]), s.active[q][0], script).stop == Done
    ensures var e := s.active[q][0];
            var o := Calls(Serve(s, e), e, script);
            && Inv(o.s) && |o.s.active| == |s.active|
            && var o' := Pass(o.s, q, o.rest);
               Pass(s, q, script) == o'.(calls := o.calls + o'.calls, log := [Serving(s, e, script)] + o'.log)
  {
    hide Inv, Serve, Calls, Serving;
    var e := s.active[q][0];
    ServeInv(s, q);
    CallsInv(Serve(s, e), e, script);
    CallsNone(Serve(s, e), e, script);
  }

  /** A program can bring that about: two events set up and each activated with two calls to
      come.  The second is called once. */
  lemma TwoEventRun(sigEvent: Event, pipe: nat, pri: nat, npriorities: nat, nfds: nat, actions: map<int, Action>, a: Event, b: Event)
    requires pri < npriorities && nfds > 0 && a != b && a != sigEvent && b != sigEvent
    ensures var s := Fresh(sigEvent, pipe, pri, npriorities, nfds, actions);
            var ops := [Attach(a, -1, {}), Attach(b, -1, {}), EventActive(a, {Read}, 2), EventActive(b, {Read}, 2)];
            && Obeys(s, ops) && Inv(Run(s, ops)) && FirstQueue(Run(s, ops).active) < |Run(s, ops).active|
            && Processed(Run(s, ops), [[EventDel(a)], [EventDel(a)]]).calls == [a, b]
            && Of(Run(s, ops), a).ncalls == Of(Run(s, ops), b).ncalls == 2
  {
    hide Inv, Fresh, AttachTo, MakeActive, Pass, Run, Obeys, FirstQueue;
    var s := Fresh(sigEvent, pipe, pri, npriorities, nfds, actions);
    var ops := [Attach(a, -1, {}), Attach(b, -1, {}), EventActive(a, {Read}, 2), EventActive(b, {Read}, 2)];
    FreshInv(sigEvent, pipe, pri, npriorities, nfds, actions);
    var s1 := AttachTo(s, a, -1, {});
    var s2 := AttachTo(s1, b, -1, {});
    var s3 := MakeActive(s2, a, {Read}, 2);
    TwoActive(sigEvent, pipe, pri, npriorities, nfds, actions, a, b);
    RunTwo(s, ops[0], ops[1]);
    RunTwo(s2, ops[2], ops[3]);
    RunJoin(s, ops[..2], ops[2..]);
    assert ops[..2] == [ops[0], ops[1]] && ops[2..] == [ops[2], ops[3]] && ops[..2] + ops[2..] == ops;
    RunInv(s, ops);
    var s4 := Run(s, ops);
    var q := npriorities / 2;
    FirstIs(s4.active, q);
    BegunInv(s4);
    DeleteStealsCalls(Begun(s4), q, a, b);
  }

  /** The states on the way. */
  lemma TwoActive(sigEvent: Event, pipe: nat, pri: nat, npriorities: nat, nfds: nat, actions: map<int, Action>, a: Event, b: Event)
    requires pri < npriorities && nfds > 0 && a != b && a != sigEvent && b != sigEvent
    ensures var s := Fresh(sigEvent, pipe, pri, npriorities, nfds, actions);
            var s1 := AttachTo(s, a, -1, {});
            var s2 := AttachTo(s1, b, -1, {});
            var s3 := MakeActive(s2, a, {Read}, 2);
            var s4 := MakeActive(s3, b, {Read}, 2);
            && a !in s.evs && b !in s1.evs && a in s2.evs && b in s3.evs && s2.sigEvent == s3.sigEvent == s4.sigEvent == sigEvent
            && s4.active == seq(npriorities, i => [])[npriorities / 2 := [a, b]]
            && Of(s4, a).ncalls == Of(s4, b).ncalls == 2 && !s4.broken && !s4.cell.running
  {
    var s := Fresh(sigEvent, pipe, pri, npriorities, nfds, actions);
    assert Short(2) == 2;
    assert [] + [a] + [b] == [a, b];
    var empty := seq(npriorities, i => []);
    assert empty[npriorities / 2 := [a]][npriorities / 2 := [a, b]] == empty[npriorities / 2 := [a, b]];
  }

  lemma {:induction false} RunJoin(s: State, xs: seq<Op>, ys: seq<Op>)
    ensures Run(s, xs + ys) == Run(Run(s, xs), ys)
    ensures Obeys(s, xs + ys) <==> Obeys(s, xs) && Obeys(Run(s, xs), ys)
    decreases |xs|
  {
    hide Step, Permitted;
    if xs == [] {
      assert xs + ys == ys;
    } else {
      RunJoin(Step(s, xs[0]), xs[1..], ys);
      assert (xs + ys)[1..] == xs[1..] + ys;
    }
  }

  lemma {:induction false} FirstIs(active: seq<seq<Event>>, q: nat)
    requires q < |active| && active[q] != [] && forall i | 0 <= i < q :: active[i] == []
    ensures FirstQueue(active) == q
  {
    if q > 0 {
      FirstIs(active[1..], q - 1);
    }
  }
}
