/** The base and the clock: how long epoll_wait may sleep, and what happens to pending
    deadlines when the clock is set back. */
module Clock {
  import opened Seqs
  import opened Timevals
  import opened Events
  import opened HeapOrder
  import opened MinHeaps
  import opened Epoll
  import opened BaseState
  import opened BaseInv
  import opened BaseRuns
  import opened BaseEffects
  import opened Timeouts
  import opened EventBases
  import opened BaseLoops

  // ----- timeout_correct -----

  /** Every pending deadline moved back by `off`. */
  ghost function Shift(s: State, off: Timeval): State {
    s.(evs := map e | e in s.evs ::
         if e in s.heap then s.evs[e].(timeout := TimerSub(s.evs[e].timeout, off)) else s.evs[e])
  }

  lemma ShiftSame(s: State, off: Timeval)
    ensures Shift(s, off).evs.Keys == s.evs.Keys
    ensures forall e | e in s.evs :: Shift(s, off).evs[e].(timeout := s.evs[e].timeout) == s.evs[e]
    ensures forall q :: Counted(Shift(s, off), q) == Counted(s, q)
  {
  }

  lemma ShiftInv(s: State, off: Timeval)
    requires Inv(s)
    ensures Inv(Shift(s, off))
  {
    hide Core, Slots, Signals, SelfPipe, Agree;
    ShiftCore(s, off);
    ShiftSlots(s, off);
    ShiftSignals(s, off);
    ShiftPipe(s, off);
  }

  lemma ShiftCore(s: State, off: Timeval)
    requires Core(s)
    ensures Core(Shift(s, off))
  {
    hide Counted, Shift, TotalLen, Lists;
    ShiftSame(s, off);
    ShiftRest(s, off);
    ShiftLists(s, off);
    assert forall e | e in s.evs :: Shift(s, off).evs[e] == s.evs[e].(timeout := Shift(s, off).evs[e].timeout);
  }

  lemma ShiftLists(s: State, off: Timeval)
    requires Lists(s)
    ensures Lists(Shift(s, off))
  {
    hide Shift;
    ShiftSame(s, off);
    ShiftRest(s, off);
    assert forall e | e in s.evs :: Shift(s, off).evs[e].flags == s.evs[e].flags && Shift(s, off).evs[e].pri == s.evs[e].pri;
  }

  lemma ShiftRest(s: State, off: Timeval)
    ensures Shift(s, off) == s.(evs := Shift(s, off).evs)
  {
  }

  lemma ShiftSlots(s: State, off: Timeval)
    requires Slots(s)
    ensures Slots(Shift(s, off))
  {
    var s' := Shift(s, off);
    forall fd | 0 <= fd < |s.poll.table| && s.poll.table[fd].evread != null
      ensures InterestedIn(s', s.poll.table[fd].evread, fd, Read) {
      assert InterestedIn(s, s.poll.table[fd].evread, fd, Read);
    }
    forall fd | 0 <= fd < |s.poll.table| && s.poll.table[fd].evwrite != null
      ensures InterestedIn(s', s.poll.table[fd].evwrite, fd, Write) {
      assert InterestedIn(s, s.poll.table[fd].evwrite, fd, Write);
    }
  }

  lemma ShiftSignals(s: State, off: Timeval)
    requires Signals(s)
    ensures Signals(Shift(s, off))
  {
    forall i, x | 0 <= i < NSIG && x in s.sigs[i] ensures InterestedIn(Shift(s, off), x, i, Signal) {
      assert InterestedIn(s, x, i, Signal);
    }
  }

  lemma ShiftPipe(s: State, off: Timeval)
    requires SelfPipe(s)
    ensures SelfPipe(Shift(s, off))
  {
    ShiftSame(s, off);
  }

  /** Moving all deadlines by the same amount keeps them in heap order. */
  lemma ShiftOrdered(t: seq<Timeval>, t': seq<Timeval>, off: Timeval)
    requires Ordered(t) && |t'| == |t| && Normal(off)
    requires forall i | 0 <= i < |t| :: Normal(t[i]) && t'[i] == TimerSub(t[i], off)
    ensures Ordered(t')
  {
    forall i | 0 <= i < |t'| ensures InOrder(t', i) {
      assert InOrder(t, i);
      if i > 0 {
        TimevalIsMicros(t[(i-1)/2], t[i]);
        TimevalIsMicros(t[(i-1)/2], off);
        TimevalIsMicros(t[i], off);
        TimevalIsMicros(t'[(i-1)/2], t'[i]);
      }
    }
  }

  lemma KeyOf(heap: MinHeap, t: seq<Timeval>, e: Event)
    requires Holds(heap.p, heap.elems, t, -1, null) && e in heap.elems
    ensures 0 <= e.min_heap_idx < |t| && e.ev_timeout == t[e.min_heap_idx]
  {
  }

  lemma KeysNormal(heap: MinHeap)
    requires heap.Valid() && forall e | e in heap.elems :: Normal(e.ev_timeout)
    ensures |heap.keys| == heap.n && forall j | 0 <= j < |heap.keys| :: Normal(heap.keys[j])
  {
    forall j | 0 <= j < |heap.keys| ensures Normal(heap.keys[j]) {
      SlotHolds(heap.p, heap.elems, heap.keys, -1, null, j);
    }
  }

  /** for (; size-- > 0; ++pev): the deadlines change in place, behind the heap's back. */
  method ShiftHeap(heap: MinHeap, off: Timeval)
    requires heap.Valid() && Normal(off) && forall e | e in heap.elems :: Normal(e.ev_timeout)
    modifies heap`keys, heap.elems`ev_timeout
    ensures heap.Valid()
    ensures forall e | e in heap.elems :: e.ev_timeout == TimerSub(old(e.ev_timeout), off)
  {
    hide Ordered, Holds;
    KeysNormal(heap);
    forall e | e in heap.elems ensures 0 <= e.min_heap_idx < |heap.keys| && e.ev_timeout == heap.keys[e.min_heap_idx] { KeyOf(heap, heap.keys, e); }
    ghost var keys, t := heap.keys, heap.keys;
    var i := 0;
    while i < heap.n
      invariant i <= heap.n == |keys| == |t| && heap.keys == keys
      invariant forall j | 0 <= j < |keys| :: t[j] == if j < i then TimerSub(keys[j], off) else keys[j]
      invariant Holds(heap.p, heap.elems, t, -1, null)
    {
      ShiftOne(heap, i, off, t);
      t := t[i := TimerSub(t[i], off)];
      i := i + 1;
    }
    ShiftOrdered(keys, t, off);
    heap.keys := t;
    assert heap.Valid();
    forall e | e in heap.elems ensures e.ev_timeout == TimerSub(old(e.ev_timeout), off) {
      KeyOf(heap, t, e);
    }
  }

  method ShiftOne(heap: MinHeap, i: nat, off: Timeval, ghost t: seq<Timeval>)
    requires Holds(heap.p, heap.elems, t, -1, null) && i < |t|
    modifies heap.elems`ev_timeout
    ensures Holds(heap.p, heap.elems, t[i := TimerSub(t[i], off)], -1, null)
  {
    var ev := heap.p[i];
    ev.ev_timeout := TimerSub(ev.ev_timeout, off);
  }

  /** Every pending deadline is a normalised timeval. */
  ghost predicate NormalTimers(s: State) {
    forall e | e in s.heap :: Normal(Of(s, e).timeout)
  }

  /** What the step does to the objects of a base. */
  twostate predicate HeapShifted(base: EventBase, new off: Timeval)
    reads *
  {
    && base.Repr == old(base.Repr) && base.SameScalars()
    && (forall q: Tailq | q in old(base.Repr) :: unchanged(q)) && (forall l: Link | l in old(base.Repr) :: unchanged(l))
    && unchanged(base.evbase) && unchanged(old(base.evbase.fds))
    && base.timeheap.p == old(base.timeheap.p) && base.timeheap.elems == old(base.timeheap.elems)
    && (forall e: Event | e in old(base.Repr) ::
          FieldsOf(e) == if e in old(base.timeheap.elems) then old(FieldsOf(e)).(timeout := TimerSub(old(e.ev_timeout), off))
                         else old(FieldsOf(e)))
  }

  twostate lemma ShiftedOwned(base: EventBase, new off: Timeval)
    requires old(base.Owned()) && HeapShifted(base, off) && base.view.evs.Keys == old(base.view).evs.Keys
    ensures base.Owned() && base.ListsAlone()
  {
  }

  twostate lemma ShiftedEvents(base: EventBase, new off: Timeval)
    requires old(base.Valid()) && HeapShifted(base, off) && base.Owned() && base.view == Shift(old(base.view), off)
    ensures base.EventsAgree() && base.LinksAgree() && base.TablesAgree() == base.timeheap.Valid() && base.ScalarsAgree()
  {
    hide EventBase.QueuesAgree, MinHeap.Valid;
    ShiftSame(old(base.view), off);
  }

  twostate lemma Shifted(base: EventBase, new off: Timeval)
    requires old(base.Valid()) && HeapShifted(base, off) && base.view == Shift(old(base.view), off) && base.timeheap.Valid()
    ensures base.Valid()
  {
    hide EventBase.EventsAgree, EventBase.LinksAgree, EventBase.QueuesAgree, EventBase.TablesAgree, HeapShifted, MinHeap.Valid,
         EventBase.ListsAlone, EventBase.ScalarsAgree, EventBase.Owned, Shift;
    ShiftSame(old(base.view), off);
    ShiftRest(old(base.view), off);
    ShiftedOwned(base, off);
    ShiftedEvents(base, off);
    base.QueuesAlone();
  }

  /** timeout_correct, where `tv` is the clock and `event_tv` what it said last. */
  method TimeoutCorrect(base: EventBase, use_monotonic: bool, tv: Timeval, event_tv: Timeval) returns (event_tv': Timeval)
    requires base.Valid() && Inv(base.view) && base in base.Repr && NormalTimers(base.view) && Normal(tv) && Normal(event_tv)
    modifies base, base.Repr
    ensures base.Valid() && base.Repr == old(base.Repr) && Inv(base.view)
    ensures event_tv' == if use_monotonic then event_tv else tv
    ensures base.view == if !use_monotonic && Later(event_tv, tv) then Shift(old(base.view), TimerSub(event_tv, tv)) else old(base.view)
  {
    hide EventBase.Valid, Inv, MinHeap.Valid, Shift;
    if use_monotonic {
      return event_tv;
    }
    if !Later(event_tv, tv) {
      return tv;
    }
    var off := TimerSub(event_tv, tv);
    TimevalIsMicros(event_tv, tv);
    ShiftInv(base.view, off);
    HeapKnown(base);
    ShiftTimers(base, off);
    return tv;
  }

  method ShiftTimers(base: EventBase, off: Timeval)
    requires base.Valid() && Inv(base.view) && base in base.Repr && NormalTimers(base.view) && Normal(off)
    modifies base, base.Repr
    ensures base.Valid() && base.Repr == old(base.Repr) && base.view == Shift(old(base.view), off)
  {
    hide EventBase.Valid, Inv, MinHeap.Valid, Shift;
    HeapKnown(base);
    HeapOwned(base);
    label Before:
    ShiftHeap(base.timeheap, off);
    base.view := Shift(base.view, off);
    Shifted@Before(base, off);
  }

  lemma HeapOwned(base: EventBase)
    requires base.Valid()
    ensures base.PartsOwned() && forall e | e in base.timeheap.elems :: e in base.Repr
  {
  }

  /** Set back by any amount, the clock leaves every event as far from its deadline as it
      was when the base last looked, to the microsecond, and the deadlines normalised. */
  lemma DeadlinesKept(s: State, tv: Timeval, event_tv: Timeval, e: Event)
    requires Inv(s) && NormalTimers(s) && Normal(tv) && Normal(event_tv) && Later(event_tv, tv) && e in s.heap
    ensures var s' := Shift(s, TimerSub(event_tv, tv));
            && e in s'.heap && Micros(Of(s', e).timeout) - Micros(tv) == Micros(Of(s, e).timeout) - Micros(event_tv)
            && NormalTimers(s')
            && forall now1, now2 | Normal(now1) && Normal(now2) && Micros(now2) - Micros(tv) == Micros(now1) - Micros(event_tv) ::
                 Due(s', e, now2) <==> Due(s, e, now1)
  {
    hide Core, Wired;
    var off := TimerSub(event_tv, tv);
    var s' := Shift(s, off);
    TimevalIsMicros(event_tv, tv);
    DueKnown(s);
    forall x | x in s.heap ensures Normal(Of(s', x).timeout) && Micros(Of(s', x).timeout) == Micros(Of(s, x).timeout) - Micros(off) {
      TimevalIsMicros(Of(s, x).timeout, off);
    }
    forall now1, now2 | Normal(now1) && Normal(now2) && Micros(now2) - Micros(tv) == Micros(now1) - Micros(event_tv)
      ensures Due(s', e, now2) <==> Due(s, e, now1)
    {
      TimevalIsMicros(Of(s, e).timeout, now1);
      TimevalIsMicros(Of(s', e).timeout, now2);
    }
  }

  // ----- timeout_next and the argument of epoll_wait -----

  /** `tv` is the time from `now` to the first deadline, zero if that has passed. */
  ghost predicate NextWait(s: State, now: Timeval, tv: Option<Timeval>) {
    match tv
    case None => s.heap == {}
    case Some(t) => Normal(t) && exists e | e in s.heap :: Earliest(s, e) && WaitFor(s, e, now, t)
  }

  ghost predicate WaitFor(s: State, e: Event, now: Timeval, t: Timeval) {
    var left := Micros(Of(s, e).timeout) - Micros(now);
    Micros(t) == if left > 0 then left else 0
  }

  /** timeout_next */
  method TimeoutNext(base: EventBase, now: Timeval) returns (tv: Option<Timeval>)
    requires base.Valid() && Inv(base.view) && NormalTimers(base.view) && Normal(now)
    ensures NextWait(base.view, now, tv)
  {
    hide EventBase.Valid, Inv, MinHeap.Valid;
    HeapKnown(base);
    var ev := base.timeheap.Top();
    if ev == null {
      return None;
    }
    assert Earliest(base.view, ev);
    TimevalIsMicros(ev.ev_timeout, now);
    if !Later(ev.ev_timeout, now) {
      assert WaitFor(base.view, ev, now, Timeval(0, 0));
      return Some(Timeval(0, 0));
    }
    var left := TimerSub(ev.ev_timeout, now);
    assert WaitFor(base.view, ev, now, left);
    return Some(left);
  }

  const MAX_EPOLL_TIMEOUT_MSEC := 35 * 60 * 1000

  function Millis(tv: Timeval): int {
    tv.sec * 1000 + (tv.usec + 999) / 1000
  }

  /** The timeout epoll_dispatch hands to epoll_wait: narrowed first, clamped second. */
  function EpollTimeout(tv: Option<Timeval>): int {
    var timeout := if tv.Some? then Int32(Millis(tv.value)) else -1;
    if timeout > MAX_EPOLL_TIMEOUT_MSEC then MAX_EPOLL_TIMEOUT_MSEC else timeout
  }

  /** Milliseconds are rounded up, by less than one. */
  lemma RoundedUp(tv: Timeval)
    requires Normal(tv)
    ensures Micros(tv) <= 1000 * Millis(tv) < Micros(tv) + 1000
  {
  }

  /** The wait is the clamped one exactly if narrowing to int loses nothing, or leaves by
      chance a number beyond the clamp. */
  lemma ClampedExactly(tv: Timeval)
    requires Normal(tv) && tv.sec >= 0
    ensures var n := Millis(tv);
            EpollTimeout(Some(tv)) == (if n > MAX_EPOLL_TIMEOUT_MSEC then MAX_EPOLL_TIMEOUT_MSEC else n)
            <==> n < 0x8000_0000 || MAX_EPOLL_TIMEOUT_MSEC <= n % 0x1_0000_0000 < 0x8000_0000
  {
    var n := Millis(tv);
    RoundedUp(tv);
    assert n >= 0;
    if n % 0x1_0000_0000 < 0x8000_0000 {
      assert Int32(n) == n % 0x1_0000_0000;
    } else {
      assert Int32(n) == n % 0x1_0000_0000 - 0x1_0000_0000;
    }
  }

  /** What epoll_wait is asked to wait, in milliseconds, when `left` microseconds are left:
      they are rounded up, and at most 35 minutes, as long as the milliseconds fit an int. */
  ghost predicate WaitsFor(left: int, wait: int) {
    var ms := if left <= 0 then 0 else (left + 999) / 1000;
    var low := ms % 0x1_0000_0000;
    && (ms < 0x8000_0000 ==> wait == if ms > 2100000 then 2100000 else ms)
    && (ms < 0x8000_0000 ==> (wait == 0 <==> left <= 0))
    && (ms >= 0x8000_0000 ==> wait == if low >= 0x8000_0000 then low - 0x1_0000_0000 else if low > 2100000 then 2100000 else low)
  }

  /** No deadline is before that of `e`. */
  ghost predicate First(s: State, e: Event) {
    e in s.heap && forall x | x in s.heap :: Micros(Of(s, e).timeout) <= Micros(Of(s, x).timeout)
  }

  /** Without a timer the wait lasts until something happens; else until the first deadline. */
  ghost predicate WaitIs(s: State, now: Timeval, wait: int) {
    && (s.heap == {} ==> wait == -1)
    && forall e | e in s.heap && First(s, e) :: WaitsFor(Micros(Of(s, e).timeout) - Micros(now), wait)
  }

  lemma TimeoutWaits(left: int, tv: Timeval)
    requires Normal(tv) && Micros(tv) == if left > 0 then left else 0
    ensures WaitsFor(left, EpollTimeout(Some(tv)))
  {
    var ms := if left <= 0 then 0 else (left + 999) / 1000;
    RoundedUp(tv);
    assert Millis(tv) == ms;
    IntOf(ms);
  }

  lemma WaitExactly(s: State, now: Timeval, tv: Option<Timeval>)
    requires NormalTimers(s) && Normal(now) && NextWait(s, now, tv)
    ensures WaitIs(s, now, EpollTimeout(tv))
  {
    hide WaitsFor, Micros, Earliest, First;
    if tv.Some? {
      var f :| f in s.heap && Earliest(s, f) && WaitFor(s, f, now, tv.value);
      forall e | e in s.heap && First(s, e) ensures WaitsFor(Micros(Of(s, e).timeout) - Micros(now), EpollTimeout(tv)) {
        FirstIs(s, e, f);
        TimeoutWaits(Micros(Of(s, e).timeout) - Micros(now), tv.value);
      }
    }
  }

  lemma FirstIs(s: State, e: Event, f: Event)
    requires NormalTimers(s) && First(s, e) && Earliest(s, f)
    ensures Micros(Of(s, e).timeout) == Micros(Of(s, f).timeout)
  {
    TimevalIsMicros(Of(s, f).timeout, Of(s, e).timeout);
  }

  lemma IntOf(n: int)
    ensures 0 <= n < 0x8000_0000 ==> Int32(n) == n
    ensures var low := n % 0x1_0000_0000; Int32(n) == if low >= 0x8000_0000 then low - 0x1_0000_0000 else low
  {
    var low := n % 0x1_0000_0000;
    assert n == n / 0x1_0000_0000 * 0x1_0000_0000 + low;
  }

  /** A timer 24 days and 21 hours ahead makes the base wait without limit. */
  lemma DistantTimerBlocks()
    ensures Normal(Timeval(2147484, 0)) && EpollTimeout(Some(Timeval(2147484, 0))) < 0
  {
  }

  /** How far the wait may last beyond the first deadline: less than a millisecond, and not
      at all if an event is due. */
  lemma SleepBound(s: State, now: Timeval, tv: Timeval, e: Event)
    requires NormalTimers(s) && Normal(now) && NextWait(s, now, Some(tv)) && Millis(tv) <= MAX_EPOLL_TIMEOUT_MSEC
    requires Earliest(s, e)
    ensures var timeout, deadline := EpollTimeout(Some(tv)), Micros(Of(s, e).timeout);
            && timeout >= 0 && (timeout == 0 <==> Due(s, e, now))
            && (timeout > 0 ==> 0 <= Micros(now) + 1000 * timeout - deadline < 1000)
            && Micros(now) + 1000 * timeout >= deadline
  {
    var x :| x in s.heap && Earliest(s, x) && WaitFor(s, x, now, tv);
    TimevalIsMicros(Of(s, x).timeout, Of(s, e).timeout);
    TimevalIsMicros(Of(s, e).timeout, now);
    RoundedUp(tv);
    ClampedExactly(tv);
  }

  /** Waiting makes progress.  If the clock has advanced by the wait when timeout_process
      reads it, no event with the first deadline or an earlier one is left, whatever the
      backend took out of the heap meanwhile. */
  lemma WaitProgress(s: State, now: Timeval, tv: Timeval, e: Event, s': State, now': Timeval, order: seq<Event>)
    requires NormalTimers(s) && Normal(now) && NextWait(s, now, Some(tv)) && Millis(tv) <= MAX_EPOLL_TIMEOUT_MSEC && Earliest(s, e)
    requires Inv(s') && s'.heap <= s.heap && (forall x | x in s'.heap :: Of(s', x).timeout == Of(s, x).timeout)
    requires Normal(now') && Micros(now') >= Micros(now) + 1000 * EpollTimeout(Some(tv)) && Serves(s', now', order)
    ensures forall x | x in ExpireAll(s', order).heap :: Later(Of(s, x).timeout, Of(s, e).timeout)
    ensures e in s'.heap ==> e in order
  {
    hide Inv, Serves, ExpireAll;
    SleepBound(s, now, tv, e);
    TimevalIsMicros(Of(s, e).timeout, now');
    TimeoutProcessExact(s', now', order);
    forall x | x in ExpireAll(s', order).heap ensures Later(Of(s, x).timeout, Of(s, e).timeout) {
      assert x in s'.heap;
      TimevalIsMicros(Of(s, x).timeout, now');
      TimevalIsMicros(Of(s, x).timeout, Of(s, e).timeout);
    }
  }

  // ----- deadlines stay normalised -----

  ghost predicate NormalOp(op: Op) {
    op.EventAdd? && op.tv.Some? ==> Normal(op.tv.value) && Normal(op.env.now)
  }

  lemma AddNormal(s: State, e: Event, tv: Option<Timeval>, env: Env)
    requires Inv(s) && AddOk(s, e) && NormalTimers(s) && NormalOp(EventAdd(e, tv, env))
    ensures NormalTimers(Add(s, e, tv, env).0)
  {
    hide Inv, Add, Normal, Off, TimerAdd, FreeFor, Wants;
    AddChanges(s, e, tv, env);
    DueKnown(s);
    if tv.Some? {
      SumNormal(env.now, tv.value);
    }
  }

  lemma SumNormal(a: Timeval, b: Timeval)
    requires Normal(a) && Normal(b)
    ensures Normal(TimerAdd(a, b))
  {
    TimevalIsMicros(a, b);
  }

  lemma StepNormal(s: State, op: Op)
    requires Inv(s) && Permitted(s, op) && NormalTimers(s) && NormalOp(op)
    ensures NormalTimers(Step(s, op))
  {
    hide Inv, Add, Del, Normal, AddOk;
    DueKnown(s);
    match op {
      case EventAdd(e, tv, env) => AddNormal(s, e, tv, env);
      case EventDel(e) => CoreOf(s); DelEffect(s, e);
      case _ =>
    }
  }

  /** The arithmetic on deadlines only ever meets normalised values. */
  lemma {:induction false} RunNormal(s: State, ops: seq<Op>)
    requires Inv(s) && Obeys(s, ops) && NormalTimers(s) && forall op | op in ops :: NormalOp(op)
    ensures NormalTimers(Run(s, ops))
    decreases |ops|
  {
    hide Inv, Step, Permitted, NormalTimers, NormalOp;
    if ops != [] {
      StepInv(s, ops[0]);
      StepNormal(s, ops[0]);
      RunNormal(Step(s, ops[0]), ops[1..]);
    }
  }
}
