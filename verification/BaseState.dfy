/** What an event base is, as a value: the events it knows, the three structures an
    event can be on, the interest table and the signal lists; and what each call of
    the API makes of it. */
module BaseState {
  import opened Seqs
  import opened Timevals
  import opened Events
  import opened Epoll
  import opened MinHeaps

  /** The fields of one event.  `pncalls` says where ev_pncalls points: at the counter of
      the pass with that number, or nowhere if it is 0. */
  datatype Ev = Ev(fd: int, events: set<What>, pri: int, flags: set<Flag>,
                   timeout: Timeval, res: set<What>, ncalls: int, pncalls: nat)

  /** The counter `ncalls` of event_process_active: its value, the number of the latest
      pass, and whether that pass is still under way.  `wild` says that something has been
      written through a pointer to the counter of a pass that was over. */
  datatype Counter = Counter(n: int, pass: nat, running: bool, wild: bool)

  /** What a signal does: evsignal_handler, or something that is none of the library's business. */
  datatype Action = Ours | Theirs(id: nat)

  /** The actions sh_old has saved, and beside them the kernel's dispositions. */
  datatype Handlers = Handlers(saved: map<int, Action>, actions: map<int, Action>)

  /** `cap` is the allocated size of the timer heap. */
  datatype State = State(
    evs: map<Event, Ev>,
    inserted: seq<Event>, active: seq<seq<Event>>, heap: set<Event>, cap: nat,
    count: int, countActive: int, cell: Counter, broken: bool,
    poll: Poll,
    sigs: seq<seq<Event>>, sigEvent: Event, sigAdded: bool, handlers: Handlers)

  /** Everything a call of event_add depends on besides the base: whether the timer heap
      and the descriptor table can grow, the kernel's answers, and the clock. */
  datatype Env = Env(heapGrant: bool, tableGrant: bool, ctl: bool, sigact: bool, now: Timeval)

  const NSIG := 65

  const QUEUES := {Timeout, Inserted, Active}
  const IO_EVENTS := {Read, Write}

  /** A C short keeps its argument modulo 2^16; counting down to zero only sees the residue. */
  function Short(n: int): (r: int)
    ensures 0 <= r < 0x1_0000 && (r - n) % 0x1_0000 == 0
    ensures 0 <= n < 0x1_0000 ==> r == n
  {
    n % 0x1_0000
  }

  /** Conversion of a long or a size_t to an int. */
  function Int32(n: int): (r: int)
    ensures -0x8000_0000 <= r < 0x8000_0000 && (r - n) % 0x1_0000_0000 == 0
    ensures -0x8000_0000 <= n < 0x8000_0000 ==> r == n
  {
    (n + 0x8000_0000) % 0x1_0000_0000 - 0x8000_0000
  }

  function Of(s: State, e: Event): Ev {
    if e in s.evs then s.evs[e] else Ev(-1, {}, 0, {}, Timeval(0, 0), {}, 0, 0)
  }

  function Put(s: State, e: Event, ev: Ev): State {
    s.(evs := s.evs[e := ev])
  }

  /** The list at `i`, and the lists with `i` replaced. */
  function ListAt(lists: seq<seq<Event>>, i: int): seq<Event> {
    if 0 <= i < |lists| then lists[i] else []
  }

  function SetList(lists: seq<seq<Event>>, i: int, list: seq<Event>): seq<seq<Event>> {
    if 0 <= i < |lists| then lists[i := list] else lists
  }

  // ----- event_queue_insert and event_queue_remove -----

  function QInsert(s: State, e: Event, q: Flag): State {
    var ev := Of(s, e);
    var s1 := Put(s, e, ev.(flags := ev.flags + {q}))
              .(count := if Internal in ev.flags then s.count else s.count + 1);
    match q
    case Inserted => s1.(inserted := s.inserted + [e])
    case Active => s1.(countActive := s.countActive + 1,
                       active := SetList(s.active, ev.pri, ListAt(s.active, ev.pri) + [e]))
    case Timeout => s1.(heap := s.heap + {e})
    case _ => s1
  }

  function QRemove(s: State, e: Event, q: Flag): State {
    var ev := Of(s, e);
    var s1 := Put(s, e, ev.(flags := ev.flags - {q}))
              .(count := if Internal in ev.flags then s.count else s.count - 1);
    match q
    case Inserted => s1.(inserted := Without(s.inserted, e))
    case Active => s1.(countActive := s.countActive - 1,
                       active := SetList(s.active, ev.pri, Without(ListAt(s.active, ev.pri), e)))
    case Timeout => s1.(heap := s.heap - {e})
    case _ => s1
  }

  function RemoveIfOn(s: State, e: Event, q: Flag): State {
    if q in Of(s, e).flags then QRemove(s, e, q) else s
  }

  // ----- event_add -----

  /** Whether event_add hands the event to the backend. */
  predicate Wants(ev: Ev) {
    ev.events * (IO_EVENTS + {Signal}) != {} && ev.flags * {Inserted, Active} == {}
  }

  ghost function IoAdd(s: State, e: Event, env: Env): (State, bool) {
    var (p, ok) := PollAdd(s.poll, e, Of(s, e).fd, Of(s, e).events, env.tableGrant, env.ctl);
    (s.(poll := p), ok)
  }

  function Enqueue(r: (State, bool), e: Event): (State, int) {
    if r.1 then (QInsert(r.0, e, Inserted), 0) else (r.0, -1)
  }

  /** event_add without a timeout of an event that is not a signal event. */
  ghost function IoInsert(s: State, e: Event, env: Env): (State, int) {
    if Wants(Of(s, e)) then Enqueue(IoAdd(s, e, env), e) else (s, 0)
  }

  function Enlist(s: State, e: Event): State {
    s.(sigs := SetList(s.sigs, Of(s, e).fd, ListAt(s.sigs, Of(s, e).fd) + [e]))
  }

  function ActionOf(h: Handlers, sig: int): Action {
    if sig in h.actions then h.actions[sig] else Theirs(0)
  }

  /** _evsignal_set_handler, when sigaction succeeds, and when anything in it fails: the
      slot of sh_old is set to NULL then. */
  function Install(h: Handlers, sig: int): Handlers {
    Handlers(h.saved[sig := ActionOf(h, sig)], h.actions[sig := Ours])
  }

  function Forget(h: Handlers, sig: int): Handlers {
    h.(saved := h.saved - {sig})
  }

  /** _evsignal_restore_handler; with nothing saved the sigaction in it changes nothing. */
  function Restore(h: Handlers, sig: int): Handlers {
    if sig in h.saved then Handlers(h.saved - {sig}, h.actions[sig := h.saved[sig]]) else h
  }

  /** evsignal_add: the first event of a signal installs the handler, and the first of
      all adds the event that watches the self-pipe. */
  ghost function SigAdd(s: State, e: Event, env: Env): (State, bool) {
    var sig := Of(s, e).fd;
    if ListAt(s.sigs, sig) != [] then (Enlist(s, e), true)
    else if !env.sigact then (s.(handlers := Forget(s.handlers, sig)), false)
    else
      var s1 := s.(handlers := Install(s.handlers, sig));
      if s1.sigAdded then (Enlist(s1, e), true)
      else
        var (s2, r) := IoInsert(s1, s1.sigEvent, env);
        if r != 0 then (s2, false) else (Enlist(s2.(sigAdded := true), e), true)
  }

  /** evsel->add */
  ghost function SelAdd(s: State, e: Event, env: Env): (State, bool) {
    if Signal in Of(s, e).events then SigAdd(s, e, env) else IoAdd(s, e, env)
  }

  ghost function Insert(s: State, e: Event, env: Env): (State, int) {
    if Wants(Of(s, e)) then Enqueue(SelAdd(s, e, env), e) else (s, 0)
  }

  /** ev->ev_ncalls && ev->ev_pncalls */
  predicate Cancels(ev: Ev) {
    ev.ncalls != 0 && ev.pncalls != 0
  }

  /** *ev->ev_pncalls = 0 */
  function Written(c: Counter, pncalls: nat): Counter {
    if c.running && pncalls == c.pass then c.(n := 0) else c.(wild := true)
  }

  function Cancel(s: State, e: Event): State {
    if Cancels(Of(s, e)) then s.(cell := Written(s.cell, Of(s, e).pncalls)) else s
  }

  /** event_add drops the old deadline, and an activation that a timeout caused. */
  function Unschedule(s: State, e: Event): State {
    var s1 := RemoveIfOn(s, e, Timeout);
    if Active in Of(s1, e).flags && TimedOut in Of(s1, e).res then QRemove(Cancel(s1, e), e, Active) else s1
  }

  /** The timeout half of event_add. */
  function Schedule(s: State, e: Event, tv: Timeval, now: Timeval): State {
    var s1 := Unschedule(s, e);
    QInsert(Put(s1, e, Of(s1, e).(timeout := TimerAdd(now, tv))), e, Timeout)
  }

  function Reserved(s: State): State {
    s.(cap := Capacity(s.cap, |s.heap| + 1))
  }

  ghost function Add(s: State, e: Event, tv: Option<Timeval>, env: Env): (State, int) {
    var reserve := tv.Some? && Timeout !in Of(s, e).flags;
    if reserve && s.cap < |s.heap| + 1 && !env.heapGrant then (s, -1)
    else
      var (s1, r) := Insert(if reserve then Reserved(s) else s, e, env);
      if r == 0 && tv.Some? then (Schedule(s1, e, tv.value, env.now), 0) else (s1, r)
  }

  // ----- event_del -----

  /** The kernel accepts the request of epoll_del unless `accept` says otherwise. */
  ghost function IoDel(s: State, e: Event, accept: bool := true): (State, int) {
    var (p, ok) := PollDel(s.poll, Of(s, e).fd, Of(s, e).events, accept);
    (s.(poll := p), if ok then 0 else -1)
  }

  /** evsignal_del: the last event of a signal restores the old action. */
  function SigDel(s: State, e: Event): State {
    var sig := Of(s, e).fd;
    var list := Without(ListAt(s.sigs, sig), e);
    s.(sigs := SetList(s.sigs, sig, list), handlers := if list == [] then Restore(s.handlers, sig) else s.handlers)
  }

  /** evsel->del */
  ghost function SelDel(s: State, e: Event, accept: bool := true): (State, int) {
    if Signal in Of(s, e).events then (SigDel(s, e), 0) else IoDel(s, e, accept)
  }

  function Dequeue(s: State, e: Event): State {
    RemoveIfOn(RemoveIfOn(Cancel(s, e), e, Timeout), e, Active)
  }

  ghost function Del(s: State, e: Event, accept: bool := true): (State, int) {
    var s1 := Dequeue(s, e);
    if Inserted in Of(s1, e).flags then SelDel(QRemove(s1, e, Inserted), e, accept) else (s1, 0)
  }

  // ----- event_active and event_priority_set -----

  function MakeActive(s: State, e: Event, res: set<What>, ncalls: int): State {
    var ev := Of(s, e);
    if Active in ev.flags then Put(s, e, ev.(res := ev.res + res))
    else QInsert(Put(s, e, ev.(res := res, ncalls := Short(ncalls), pncalls := 0)), e, Active)
  }

  function PrioritySet(s: State, e: Event, pri: int): (State, int) {
    var ev := Of(s, e);
    if Active in ev.flags || pri < 0 || pri >= |s.active| then (s, -1)
    else (Put(s, e, ev.(pri := pri)), 0)
  }

  datatype Option<+T> = None | Some(value: T)
}
