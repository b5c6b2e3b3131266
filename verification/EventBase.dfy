/** `struct event_base` with its real lists, heap and tables, working on events in place.
    Every method is proved against the functions of BaseState. */
module EventBases {
  import opened Seqs
  import opened Timevals
  import opened Events
  import opened MinHeaps
  import opened Epoll
  import opened BaseState
  import opened BaseInv
  import opened BaseEffects
  import opened BaseRuns
  import opened ActivePass

  /** The fields of an event object, as a value. */
  ghost function FieldsOf(e: Event): Ev
    reads e
  {
    Ev(e.ev_fd, e.ev_events, e.ev_pri, e.ev_flags, e.ev_timeout, e.ev_res, e.ev_ncalls, e.ev_pncalls)
  }

  function LinkOf(e: Event, kind: Kind): Link {
    match kind
    case InsertedLink => e.inserted
    case ActiveLink => e.active
    case SignalLink => e.signal
  }

  /** The links of the events `es`, in this order, are the list `links`. */
  ghost predicate Threads(links: seq<Link>, es: seq<Event>, kind: Kind) {
    |links| == |es| && forall i | 0 <= i < |es| :: links[i] == LinkOf(es[i], kind)
  }

  ghost predicate Represents(q: Tailq, es: seq<Event>, kind: Kind)
    reads q, q.elems
  {
    q.Valid() && Threads(q.elems, es, kind)
  }

  const INITIAL_NFILES := 32

  class EventBase {
    var event_count: int
    var event_count_active: int
    var event_break: bool
    const activequeues: seq<Tailq>
    const eventqueue: Tailq
    const timeheap: MinHeap
    const evbase: EpollTable
    // struct evsignal_info
    const ev_signal: Event
    var ev_signal_added: bool
    const evsigevents: seq<Tailq>
    var sh_old: Handlers           // and beside it the kernel's dispositions
    // the local counter of the latest event_process_active, which ev_pncalls may point at
    var ncalls: Counter

    ghost var view: State
    ghost var Repr: set<object>

    /** The base's own objects, and the events and links it works on. */
    ghost predicate Owned()
      reads this, Repr
    {
      && this in Repr && eventqueue in Repr && timeheap in Repr && evbase in Repr
      && timeheap.p in Repr && evbase.fds in Repr
      && (forall i | 0 <= i < |activequeues| :: activequeues[i] in Repr && (forall l | l in activequeues[i].elems :: l in Repr))
      && (forall i | 0 <= i < |evsigevents| :: evsigevents[i] in Repr && (forall l | l in evsigevents[i].elems :: l in Repr))
      && (forall l | l in eventqueue.elems :: l in Repr)
      && (forall e | e in timeheap.elems :: e in Repr)
      && (forall e | e in view.evs :: e in Repr && e.inserted in Repr && e.active in Repr && e.signal in Repr)
    }

    /** Each event object has the fields recorded for it and three links of its own. */
    ghost predicate EventsAgree()
      requires Owned()
      reads this, Repr
    {
      forall e | e in view.evs :: FieldsOf(e) == view.evs[e] && e.HasLinks()
    }

    /** A link is linked in exactly if its event is on a list of its kind. */
    ghost predicate LinksAgree()
      requires Owned()
      reads this, Repr
    {
      forall e | e in view.evs ::
        && (e.inserted.on == null <==> Inserted !in view.evs[e].flags)
        && (e.active.on == null <==> Active !in view.evs[e].flags)
        && (e.signal.on == null <==> e !in ListAt(view.sigs, view.evs[e].fd))
    }

    ghost predicate ScalarsAgree()
      requires Owned()
      reads this, Repr
    {
      && event_count == view.count && event_count_active == view.countActive && event_break == view.broken
      && ncalls == view.cell && ev_signal == view.sigEvent && ev_signal_added == view.sigAdded && sh_old == view.handlers
    }

    ghost predicate QueuesAgree()
      requires Owned()
      reads this, Repr
    {
      && |activequeues| == |view.active| && |evsigevents| == |view.sigs|
      && Represents(eventqueue, view.inserted, InsertedLink)
      && (forall i | 0 <= i < |activequeues| :: Represents(activequeues[i], view.active[i], ActiveLink))
      && (forall i | 0 <= i < |evsigevents| :: Represents(evsigevents[i], view.sigs[i], SignalLink))
      && (forall i | 0 <= i < |activequeues| :: activequeues[i] != eventqueue && activequeues[i] !in evsigevents)
      && eventqueue !in evsigevents && NoDup(activequeues) && NoDup(evsigevents)
    }

    ghost predicate TablesAgree()
      requires Owned()
      reads this, Repr
    {
      && timeheap.Valid() && timeheap.elems == view.heap && timeheap.p.Length == view.cap
      && evbase.View() == view.poll
    }

    /** The objects and `view` tell the same story. */
    ghost predicate Valid()
      reads this, Repr
    {
      Owned() && EventsAgree() && LinksAgree() && ScalarsAgree() && QueuesAgree() && TablesAgree()
    }

    static method NewQueues(n: nat) returns (qs: seq<Tailq>, ghost all: set<object>)
      ensures |qs| == n && NoDup(qs) && fresh(all) && (forall q | q in qs :: q in all)
      ensures forall i | 0 <= i < n :: qs[i].Valid() && qs[i].elems == []
    {
      qs, all := [], {};
      while |qs| < n
        invariant |qs| <= n && NoDup(qs) && fresh(all) && (forall q | q in qs :: q in all)
        invariant forall i | 0 <= i < |qs| :: qs[i].Valid() && qs[i].elems == []
      {
        var q := new Tailq();
        qs, all := qs + [q], all + {q};
      }
    }

    /** evsignal_init: the event on the reading end of the self-pipe. */
    static method PipeEvent(pipe: nat, pri: nat) returns (sig: Event)
      ensures fresh(sig) && fresh(sig.inserted) && fresh(sig.active) && fresh(sig.signal) && sig.HasLinks()
      ensures FieldsOf(sig) == Ev(pipe, {Read, Persist}, pri, {Init, Internal}, Timeval(0, 0), {}, 0, 0)
      ensures sig.inserted.on == null && sig.active.on == null && sig.signal.on == null
    {
      sig := new Event(pipe, {Read, Persist}, pri);
      sig.ev_flags := {Init, Internal};
    }

    lemma FreshSigEvent(sigEvent: Event, pipe: nat, pri: nat, npriorities: nat, nfds: nat, actions: map<int, Action>)
      ensures Of(Fresh(sigEvent, pipe, pri, npriorities, nfds, actions), sigEvent)
              == Ev(pipe, {Read, Persist}, pri, {Init, Internal}, Timeval(0, 0), {}, 0, 0)
    {
    }

    /** event_base_new, with the self-pipe's reading end `pipe` and the priority event_set
        happens to give its event. */
    constructor (pipe: nat, pri: nat, npriorities: nat, actions: map<int, Action>)
      requires pri < npriorities
      ensures Valid() && fresh(Repr)
      ensures view == Fresh(ev_signal, pipe, pri, npriorities, INITIAL_NFILES, actions)
    {
      hide Owned, EventsAgree, LinksAgree, QueuesAgree, TablesAgree, ScalarsAgree, Valid, Fresh, Tailq.Valid, MinHeap.Valid, FieldsOf,
           NoDup, Event.HasLinks, EpollTable.View, Of;
      var heap := new MinHeap();
      var table := new EpollTable(INITIAL_NFILES);
      var list := new Tailq();
      var queues, active := NewQueues(npriorities);
      var signals, listed := NewQueues(NSIG);
      var sig := PipeEvent(pipe, pri);
      event_count, event_count_active, event_break, ncalls := 0, 0, false, Counter(0, 0, false, false);
      eventqueue, activequeues, timeheap, evbase := list, queues, heap, table;
      ev_signal, ev_signal_added, evsigevents, sh_old := sig, false, signals, Handlers(map[], actions);
      view := Fresh(sig, pipe, pri, npriorities, INITIAL_NFILES, actions);
      Repr := {this, heap, heap.p, table, table.fds, list, sig, sig.inserted, sig.active, sig.signal}
              + active + listed;
      new;
      FreshSigEvent(sig, pipe, pri, npriorities, INITIAL_NFILES, actions);
      FreshValid(pipe, pri, npriorities, actions);
    }

    /** Empty lists, an empty heap, an empty table and one event on nothing. */
    lemma FreshValid(pipe: nat, pri: nat, npriorities: nat, actions: map<int, Action>)
      requires view == Fresh(ev_signal, pipe, pri, npriorities, INITIAL_NFILES, actions)
      requires {this, timeheap, timeheap.p, evbase, evbase.fds, eventqueue,
                ev_signal, ev_signal.inserted, ev_signal.active, ev_signal.signal} <= Repr
      requires forall q | q in activequeues || q in evsigevents :: q in Repr
      requires FieldsOf(ev_signal) == Of(view, ev_signal) && ev_signal.HasLinks()
      requires ev_signal.inserted.on == null && ev_signal.active.on == null && ev_signal.signal.on == null
      requires event_count == event_count_active == 0 && ncalls == Counter(0, 0, false, false) && !event_break && !ev_signal_added
      requires sh_old == Handlers(map[], actions)
      requires eventqueue.Valid() && eventqueue.elems == [] && |activequeues| == npriorities && |evsigevents| == NSIG
      requires forall q | q in activequeues || q in evsigevents :: q.Valid() && q.elems == []
      requires NoDup(activequeues) && NoDup(evsigevents) && eventqueue !in activequeues && eventqueue !in evsigevents
      requires forall q | q in activequeues :: q !in evsigevents
      requires timeheap.Valid() && timeheap.elems == {} && timeheap.p.Length == 0
      requires evbase.View() == Poll(seq(INITIAL_NFILES, i => NO_SLOT), map[])
      ensures Valid()
    {
      hide Tailq.Valid, MinHeap.Valid, NoDup;
    }

    // ----- framing -----

    ghost predicate PartsOwned()
      reads this, timeheap, evbase
    {
      this in Repr && eventqueue in Repr && timeheap in Repr && evbase in Repr && timeheap.p in Repr && evbase.fds in Repr
    }

    /** `link` has joined or left `queue`, and apart from counters and the flags of `ev`
        nothing else has changed. */
    twostate predicate Relinked(ev: Event, new queue: Tailq, new link: Link)
      reads this, Repr
      requires old(PartsOwned()) && ev in old(Repr) && queue in old(Repr) && link in old(Repr)
    {
      && Repr == old(Repr) && event_break == old(event_break) && ncalls == old(ncalls)
      && ev_signal_added == old(ev_signal_added) && sh_old == old(sh_old)
      && unchanged(timeheap) && unchanged(old(timeheap.p)) && unchanged(evbase) && unchanged(old(evbase.fds))
      && (forall q: Tailq | q in old(Repr) && q != queue :: unchanged(q))
      && (forall l: Link | l in old(Repr) && l != link && old(l.on) != queue :: unchanged(l))
      && (forall l: Link | l in old(Repr) :: l.home == old(l.home) && (l != link ==> l.on == old(l.on)))
      && (forall e: Event | e in old(Repr) && e != ev :: unchanged(e))
      && unchanged(ev`ev_fd, ev`ev_events, ev`ev_pri, ev`ev_timeout, ev`ev_res, ev`ev_ncalls, ev`ev_pncalls, ev`min_heap_idx)
    }

    // What Relinked means for each part of Valid.

    twostate lemma OwnedFrame(ev: Event, new queue: Tailq, new link: Link)
      requires old(Owned()) && old(PartsOwned()) && ev in old(Repr) && queue in old(Repr) && link in old(Repr)
      requires Relinked(ev, queue, link) && view.evs.Keys == old(view.evs.Keys)
      requires forall l | l in queue.elems :: l in old(queue.elems) || l == link
      requires queue == eventqueue || queue in activequeues || queue in evsigevents
      ensures Owned()
    {
    }

    twostate lemma EventsFrame(ev: Event, new queue: Tailq, new link: Link)
      requires old(Owned()) && Owned() && ev in old(view.evs) && queue in old(Repr) && link in old(Repr)
      requires old(PartsOwned()) && old(EventsAgree()) && Relinked(ev, queue, link)
      requires view.evs == old(view.evs)[ev := old(view.evs[ev]).(flags := ev.ev_flags)]
      ensures EventsAgree()
    {
    }

    twostate lemma LinksFrame(ev: Event, new queue: Tailq, new link: Link)
      requires old(Owned()) && Owned() && ev in old(view.evs) && queue in old(Repr) && link in old(Repr)
      requires old(PartsOwned()) && old(EventsAgree()) && old(LinksAgree()) && Relinked(ev, queue, link)
      requires view.evs == old(view.evs)[ev := old(view.evs[ev]).(flags := ev.ev_flags)]
      requires forall e | e in old(view.evs) && (e != ev || link != ev.signal) ::
                 e in ListAt(view.sigs, view.evs[e].fd) <==> e in ListAt(old(view.sigs), view.evs[e].fd)
      requires link == ev.inserted || link == ev.active || link == ev.signal
      requires ev.inserted.on == null <==> Inserted !in ev.ev_flags
      requires ev.active.on == null <==> Active !in ev.ev_flags
      requires link == ev.signal ==> (ev.signal.on == null <==> ev !in ListAt(view.sigs, view.evs[ev].fd))
      ensures LinksAgree()
    {
    }

    twostate lemma TablesFrame(ev: Event, new queue: Tailq, new link: Link)
      requires old(Owned()) && Owned() && ev in old(Repr) && queue in old(Repr) && link in old(Repr)
      requires old(PartsOwned()) && old(TablesAgree()) && Relinked(ev, queue, link)
      requires view.heap == old(view.heap) && view.cap == old(view.cap) && view.poll == old(view.poll)
      ensures TablesAgree()
    {
    }

    twostate lemma RepresentsFrame(ev: Event, new queue: Tailq, new link: Link, new q: Tailq, new es: seq<Event>, new kind: Kind)
      requires old(Owned()) && Owned() && old(PartsOwned()) && ev in old(Repr) && queue in old(Repr) && link in old(Repr)
      requires Relinked(ev, queue, link) && (old(link.on) == null || old(link.on) == queue)
      requires q != queue && q in old(Repr) && (forall l | l in old(q.elems) :: l in old(Repr))
      requires old(allocated(es)) && old(Represents(q, es, kind))
      ensures Represents(q, es, kind)
    {
      q.StaysValid();
    }

    /** Every list but `queue` stands for the same events as before, and `queue` for its new ones. */
    twostate predicate ListsMatch(new queue: Tailq)
      reads this, Repr
      requires old(Owned()) && Owned()
    {
      && |view.active| == |old(view.active)| && |view.sigs| == |old(view.sigs)|
      && (eventqueue == queue ==> Represents(queue, view.inserted, InsertedLink))
      && (eventqueue != queue ==> view.inserted == old(view.inserted))
      && (forall i | 0 <= i < |activequeues| && i < |view.active| ::
            && (activequeues[i] == queue ==> Represents(activequeues[i], view.active[i], ActiveLink))
            && (activequeues[i] != queue ==> view.active[i] == old(view.active)[i]))
      && (forall i | 0 <= i < |evsigevents| && i < |view.sigs| ::
            && (evsigevents[i] == queue ==> Represents(evsigevents[i], view.sigs[i], SignalLink))
            && (evsigevents[i] != queue ==> view.sigs[i] == old(view.sigs)[i]))
    }

    twostate lemma QueuesFrame(ev: Event, new queue: Tailq, new link: Link)
      requires old(Owned()) && Owned() && ev in old(Repr) && queue in old(Repr) && link in old(Repr)
      requires old(PartsOwned()) && old(QueuesAgree()) && Relinked(ev, queue, link) && ListsMatch(queue)
      requires old(link.on) == null || old(link.on) == queue
      ensures QueuesAgree()
    {
      hide Represents, Relinked;
      if eventqueue != queue {
        RepresentsFrame(ev, queue, link, eventqueue, view.inserted, InsertedLink);
      }
      ActiveQueuesFrame(ev, queue, link);
      SignalQueuesFrame(ev, queue, link);
    }

    twostate lemma ActiveQueuesFrame(ev: Event, new queue: Tailq, new link: Link)
      requires old(Owned()) && Owned() && ev in old(Repr) && queue in old(Repr) && link in old(Repr)
      requires old(PartsOwned()) && old(QueuesAgree()) && Relinked(ev, queue, link) && ListsMatch(queue)
      requires old(link.on) == null || old(link.on) == queue
      ensures |activequeues| == |view.active|
      ensures forall i | 0 <= i < |activequeues| :: Represents(activequeues[i], view.active[i], ActiveLink)
    {
      hide Represents, Relinked;
      forall i | 0 <= i < |activequeues|
        ensures Represents(activequeues[i], view.active[i], ActiveLink)
      {
        if activequeues[i] != queue {
          RepresentsFrame(ev, queue, link, activequeues[i], view.active[i], ActiveLink);
        }
      }
    }

    twostate lemma SignalQueuesFrame(ev: Event, new queue: Tailq, new link: Link)
      requires old(Owned()) && Owned() && ev in old(Repr) && queue in old(Repr) && link in old(Repr)
      requires old(PartsOwned()) && old(QueuesAgree()) && Relinked(ev, queue, link) && ListsMatch(queue)
      requires old(link.on) == null || old(link.on) == queue
      ensures |evsigevents| == |view.sigs|
      ensures forall i | 0 <= i < |evsigevents| :: Represents(evsigevents[i], view.sigs[i], SignalLink)
    {
      hide Represents, Relinked;
      forall i | 0 <= i < |evsigevents|
        ensures Represents(evsigevents[i], view.sigs[i], SignalLink)
      {
        if evsigevents[i] != queue {
          RepresentsFrame(ev, queue, link, evsigevents[i], view.sigs[i], SignalLink);
        }
      }
    }

    lemma ThreadsAppend(links: seq<Link>, es: seq<Event>, kind: Kind, e: Event)
      requires Threads(links, es, kind)
      ensures Threads(links + [LinkOf(e, kind)], es + [e], kind)
    {
    }

    lemma {:induction false} ThreadsWithout(links: seq<Link>, es: seq<Event>, kind: Kind, e: Event)
      requires Threads(links, es, kind) && forall x | x in es :: LinkOf(x, kind) == LinkOf(e, kind) ==> x == e
      ensures Threads(Without(links, LinkOf(e, kind)), Without(es, e), kind)
    {
      if es != [] {
        ThreadsWithout(links[1..], es[1..], kind, e);
      }
    }

    // ----- event_queue_insert and event_queue_remove -----

    /** The counters and the flag: what event_queue_insert does first. */
    method CountIn(ev: Event, flag: Flag)
      modifies this`event_count, this`event_count_active, ev`ev_flags
      ensures ev.ev_flags == old(ev.ev_flags) + {flag}
      ensures event_count == old(event_count) + (if Internal in old(ev.ev_flags) then 0 else 1)
      ensures event_count_active == old(event_count_active) + (if flag == Active then 1 else 0)
    {
      if Internal !in ev.ev_flags {
        event_count := event_count + 1;
      }
      ev.ev_flags := ev.ev_flags + {flag};
      if flag == Active {
        event_count_active := event_count_active + 1;
      }
    }

    /** And event_queue_remove. */
    method CountOut(ev: Event, flag: Flag)
      modifies this`event_count, this`event_count_active, ev`ev_flags
      ensures ev.ev_flags == old(ev.ev_flags) - {flag}
      ensures event_count == old(event_count) - (if Internal in old(ev.ev_flags) then 0 else 1)
      ensures event_count_active == old(event_count_active) - (if flag == Active then 1 else 0)
    {
      if Internal !in ev.ev_flags {
        event_count := event_count - 1;
      }
      ev.ev_flags := ev.ev_flags - {flag};
      if flag == Active {
        event_count_active := event_count_active - 1;
      }
    }

    /** The counters, the flag, and one of the TAILQ cases of event_queue_insert. */
    method LinkIn(ev: Event, flag: Flag, queue: Tailq, link: Link, ghost view': State)
      requires PartsOwned() && ev in Repr && queue in Repr && link in Repr
      requires queue.Valid() && (forall l | l in queue.elems :: l.on == queue)
      requires link !in queue.elems && link.on == null && flag !in ev.ev_flags
      modifies this`event_count, this`event_count_active, this`view, ev`ev_flags
      modifies queue, queue.elems`next, link`next, link`prev, link`on
      ensures Relinked(ev, queue, link) && view == view'
      ensures queue.Valid() && queue.elems == old(queue.elems) + [link] && link.on == queue
      ensures ev.ev_flags == old(ev.ev_flags) + {flag}
      ensures event_count == old(event_count) + (if Internal in old(ev.ev_flags) then 0 else 1)
      ensures event_count_active == old(event_count_active) + (if flag == Active then 1 else 0)
    {
      hide Tailq.Valid;
      CountIn(ev, flag);
      queue.InsertTail(link);
      view := view';
    }

    /** The same for event_queue_remove. */
    method LinkOut(ev: Event, flag: Flag, queue: Tailq, link: Link, ghost view': State)
      requires PartsOwned() && ev in Repr && queue in Repr && link in Repr
      requires queue.Valid() && (forall l | l in queue.elems :: l.on == queue)
      requires link in queue.elems && flag in ev.ev_flags
      modifies this`event_count, this`event_count_active, this`view, ev`ev_flags
      modifies queue, queue.elems`next, queue.elems`prev, link`on
      ensures Relinked(ev, queue, link) && view == view'
      ensures queue.Valid() && queue.elems == Without(old(queue.elems), link) && link.on == null
      ensures ev.ev_flags == old(ev.ev_flags) - {flag}
      ensures event_count == old(event_count) - (if Internal in old(ev.ev_flags) then 0 else 1)
      ensures event_count_active == old(event_count_active) - (if flag == Active then 1 else 0)
    {
      hide Tailq.Valid;
      CountOut(ev, flag);
      queue.Remove(link);
      view := view';
    }

    function QueueFor(ev: Event, flag: Flag): Tailq
      requires flag == Inserted || 0 <= ev.ev_pri < |activequeues|
      reads ev
    {
      if flag == Inserted then eventqueue else activequeues[ev.ev_pri]
    }

    function LinkFor(ev: Event, flag: Flag): Link {
      if flag == Inserted then ev.inserted else ev.active
    }

    ghost function ListFor(s: State, ev: Event, flag: Flag): seq<Event> {
      if flag == Inserted then s.inserted else ListAt(s.active, Of(s, ev).pri)
    }

    function KindFor(flag: Flag): Kind {
      if flag == Inserted then InsertedLink else ActiveLink
    }

    /** Where an event is, or is about to be, linked for `flag`. */
    lemma BeforeQueue(ev: Event, flag: Flag)
      requires Valid() && Core(view) && ev in view.evs && (flag == Inserted || flag == Active)
      ensures Owned() && PartsOwned() && ev in Repr && LinkFor(ev, flag) in Repr
      ensures 0 <= ev.ev_pri < |activequeues| && ev.ev_pri == view.evs[ev].pri && ev.ev_flags == view.evs[ev].flags
      ensures QueueFor(ev, flag) in Repr && QueueFor(ev, flag).Valid()
      ensures forall l | l in QueueFor(ev, flag).elems :: l.on == QueueFor(ev, flag) && l in Repr
      ensures forall x | x in ListFor(view, ev, flag) :: LinkOf(x, KindFor(flag)) == LinkOf(ev, KindFor(flag)) ==> x == ev
      ensures Represents(QueueFor(ev, flag), ListFor(view, ev, flag), KindFor(flag))
      ensures LinkFor(ev, flag) == LinkOf(ev, KindFor(flag))
      ensures flag !in ev.ev_flags ==> LinkFor(ev, flag).on == null && LinkFor(ev, flag) !in QueueFor(ev, flag).elems
      ensures flag in ev.ev_flags ==> LinkFor(ev, flag) in QueueFor(ev, flag).elems
    {
      hide TablesAgree, ScalarsAgree, Counts;
      ShapeOf(view, ev);
      var q, es, link := QueueFor(ev, flag), ListFor(view, ev, flag), LinkFor(ev, flag);
      if flag in ev.ev_flags {
        assert ev in es;
        var k :| 0 <= k < |es| && es[k] == ev;
        assert q.elems[k] == link;
      }
    }

    /** The value side of a queue operation: `list` is the new content of the queue. */
    ghost predicate Moves(s: State, s': State, ev: Event, flag: Flag, flags: set<Flag>, delta: int, list: seq<Event>) {
      && ev in s.evs && s'.evs == s.evs[ev := s.evs[ev].(flags := flags)]
      && s'.heap == s.heap && s'.cap == s.cap && s'.poll == s.poll && s'.sigs == s.sigs && s'.sigEvent == s.sigEvent
      && s'.sigAdded == s.sigAdded && s'.handlers == s.handlers && s'.cell == s.cell && s'.broken == s.broken
      && s'.count == s.count + (if Internal in s.evs[ev].flags then 0 else delta)
      && s'.countActive == s.countActive + (if flag == Active then delta else 0)
      && s'.inserted == (if flag == Inserted then list else s.inserted)
      && s'.active == (if flag == Active then SetList(s.active, s.evs[ev].pri, list) else s.active)
    }

    lemma QInsertMoves(s: State, ev: Event, flag: Flag)
      requires ev in s.evs && (flag == Inserted || flag == Active)
      ensures Moves(s, QInsert(s, ev, flag), ev, flag, s.evs[ev].flags + {flag}, 1, ListFor(s, ev, flag) + [ev])
    {
    }

    lemma QRemoveMoves(s: State, ev: Event, flag: Flag)
      requires ev in s.evs && (flag == Inserted || flag == Active)
      ensures Moves(s, QRemove(s, ev, flag), ev, flag, s.evs[ev].flags - {flag}, -1, Without(ListFor(s, ev, flag), ev))
    {
    }

    /** `queue` and `link` are where `ev` is linked for `flag`. */
    ghost predicate Place(s: State, ev: Event, flag: Flag, queue: Tailq, link: Link) {
      if flag == Inserted then queue == eventqueue && link == ev.inserted
      else flag == Active && 0 <= Of(s, ev).pri < |activequeues| && queue == activequeues[Of(s, ev).pri] && link == ev.active
    }

    /** A list operation done on both sides leaves objects and value in agreement. */
    twostate lemma Moved(ev: Event, new flag: Flag, new delta: int, new list: seq<Event>, new queue: Tailq, new link: Link)
      requires old(Valid()) && ev in old(view.evs) && Place(old(view), ev, flag, queue, link)
      requires old(PartsOwned()) && ev in old(Repr) && link in old(Repr) && queue in old(Repr)
      requires Relinked(ev, queue, link) && Represents(queue, list, KindFor(flag))
      requires forall l | l in queue.elems :: l in old(queue.elems) || l == link
      requires old(link.on) == null || old(link.on) == queue
      requires link.on == null <==> flag !in ev.ev_flags
      requires forall f | f != flag :: f in ev.ev_flags <==> f in old(ev.ev_flags)
      requires Moves(old(view), view, ev, flag, ev.ev_flags, delta, list)
      requires event_count == old(event_count) + (if Internal in old(view.evs[ev]).flags then 0 else delta)
      requires event_count_active == old(event_count_active) + (if flag == Active then delta else 0)
      ensures Valid()
    {
      hide Owned, EventsAgree, LinksAgree, QueuesAgree, TablesAgree, Relinked, Represents, Tailq.Valid, ListsMatch;
      OwnedFrame(ev, queue, link);
      EventsFrame(ev, queue, link);
      TablesFrame(ev, queue, link);
      NewLinks(ev, flag, queue, link);
      LinksFrame(ev, queue, link);
      MovedLists(ev, flag, delta, list, queue, link);
      QueuesFrame(ev, queue, link);
      MovedScalars(ev, queue, link);
    }

    /** The links of `ev` after the operation. */
    twostate lemma NewLinks(ev: Event, new flag: Flag, new queue: Tailq, new link: Link)
      requires old(Valid()) && ev in old(view.evs) && Place(old(view), ev, flag, queue, link)
      requires old(PartsOwned()) && ev in old(Repr) && link in old(Repr) && queue in old(Repr)
      requires Relinked(ev, queue, link)
      requires link.on == null <==> flag !in ev.ev_flags
      requires forall f | f != flag :: f in ev.ev_flags <==> f in old(ev.ev_flags)
      ensures ev.inserted.on == null <==> Inserted !in ev.ev_flags
      ensures ev.active.on == null <==> Active !in ev.ev_flags
      ensures ev.inserted != ev.signal && ev.active != ev.signal
    {
    }

    twostate lemma MovedScalars(ev: Event, new queue: Tailq, new link: Link)
      requires old(Owned()) && Owned() && old(PartsOwned()) && ev in old(Repr) && link in old(Repr) && queue in old(Repr)
      requires Relinked(ev, queue, link)
      ensures event_break == old(event_break) && ncalls == old(ncalls)
      ensures ev_signal_added == old(ev_signal_added) && sh_old == old(sh_old) && Repr == old(Repr)
    {
    }

    twostate lemma MovedLists(ev: Event, new flag: Flag, new delta: int, new list: seq<Event>, new queue: Tailq, new link: Link)
      requires old(Owned()) && Owned() && old(QueuesAgree()) && ev in old(view.evs)
      requires Place(old(view), ev, flag, queue, link) && Represents(queue, list, KindFor(flag))
      requires Moves(old(view), view, ev, flag, Of(view, ev).flags, delta, list)
      ensures ListsMatch(queue)
    {
      hide Represents;
    }

    /** event_queue_insert for EVLIST_INSERTED and EVLIST_ACTIVE.  The branches for an event
        that is already on the queue are never taken: callers check the flag. */
    method InsertList(ev: Event, flag: Flag)
      requires Valid() && Core(view) && ev in view.evs && (flag == Inserted || flag == Active) && flag !in ev.ev_flags
      modifies this, Repr
      ensures Valid() && view == QInsert(old(view), ev, flag) && Repr == old(Repr)
    {
      hide Owned, EventsAgree, LinksAgree, QueuesAgree, TablesAgree, ScalarsAgree, Relinked, Tailq.Valid, Core, QInsert,
           Threads, ListFor, Without;
      BeforeQueue(ev, flag);
      var queue := if flag == Inserted then eventqueue else activequeues[ev.ev_pri];
      var link := if flag == Inserted then ev.inserted else ev.active;
      ghost var list := ListFor(view, ev, flag) + [ev];
      QInsertMoves(view, ev, flag);
      ThreadsAppend(queue.elems, ListFor(view, ev, flag), KindFor(flag), ev);
      LinkIn(ev, flag, queue, link, QInsert(view, ev, flag));
      Moved(ev, flag, 1, list, queue, link);
    }

    /** event_queue_remove for EVLIST_INSERTED and EVLIST_ACTIVE, and again without the branch
        for an event that is not on the queue. */
    method RemoveList(ev: Event, flag: Flag)
      requires Valid() && Core(view) && ev in view.evs && (flag == Inserted || flag == Active) && flag in ev.ev_flags
      modifies this, Repr
      ensures Valid() && view == QRemove(old(view), ev, flag) && Repr == old(Repr)
    {
      hide Owned, EventsAgree, LinksAgree, QueuesAgree, TablesAgree, ScalarsAgree, Relinked, Tailq.Valid, Core, QRemove,
           Threads, ListFor, Without;
      BeforeQueue(ev, flag);
      var queue := if flag == Inserted then eventqueue else activequeues[ev.ev_pri];
      var link := if flag == Inserted then ev.inserted else ev.active;
      ghost var list := Without(ListFor(view, ev, flag), ev);
      QRemoveMoves(view, ev, flag);
      ThreadsWithout(queue.elems, ListFor(view, ev, flag), KindFor(flag), ev);
      OnlyMembers(queue.elems, link);
      LinkOut(ev, flag, queue, link, QRemove(view, ev, flag));
      Moved(ev, flag, -1, list, queue, link);
    }

    lemma {:induction false} OnlyMembers(links: seq<Link>, link: Link)
      ensures forall l | l in Without(links, link) :: l in links
    {
      if links != [] {
        OnlyMembers(links[1..], link);
      }
    }

    // ----- operations that leave the lists alone -----

    twostate predicate ListsAlone()
      reads this, Repr
    {
      && old(Repr) <= Repr
      && (forall q: Tailq | q in old(Repr) :: unchanged(q))
      && (forall l: Link | l in old(Repr) :: unchanged(l))
    }

    twostate lemma RepresentsAlone(new q: Tailq, new es: seq<Event>, new kind: Kind)
      requires old(Owned()) && Owned() && ListsAlone() && q in old(Repr) && (forall l | l in old(q.elems) :: l in old(Repr))
      requires old(allocated(es)) && old(Represents(q, es, kind))
      ensures Represents(q, es, kind)
    {
      q.StaysValid();
    }

    twostate lemma QueuesAlone()
      requires old(Owned()) && Owned() && old(QueuesAgree()) && ListsAlone()
      requires view.inserted == old(view.inserted) && view.active == old(view.active) && view.sigs == old(view.sigs)
      ensures QueuesAgree()
    {
      hide Represents, ListsAlone;
      RepresentsAlone(eventqueue, view.inserted, InsertedLink);
      ActiveAlone();
      SignalsAlone();
    }

    twostate lemma ActiveAlone()
      requires old(Owned()) && Owned() && old(QueuesAgree()) && ListsAlone() && view.active == old(view.active)
      ensures forall i | 0 <= i < |activequeues| :: Represents(activequeues[i], view.active[i], ActiveLink)
    {
      hide Represents, ListsAlone;
      forall i | 0 <= i < |activequeues| ensures Represents(activequeues[i], view.active[i], ActiveLink) {
        RepresentsAlone(activequeues[i], view.active[i], ActiveLink);
      }
    }

    twostate lemma SignalsAlone()
      requires old(Owned()) && Owned() && old(QueuesAgree()) && ListsAlone() && view.sigs == old(view.sigs)
      ensures forall i | 0 <= i < |evsigevents| :: Represents(evsigevents[i], view.sigs[i], SignalLink)
    {
      hide Represents, ListsAlone;
      forall i | 0 <= i < |evsigevents| ensures Represents(evsigevents[i], view.sigs[i], SignalLink) {
        RepresentsAlone(evsigevents[i], view.sigs[i], SignalLink);
      }
    }

    /** Only event `ev` has new fields, and its place on the lists has not changed. */
    twostate predicate FieldsOnly(ev: Event)
      reads this, Repr
      requires old(Owned()) && Owned()
    {
      && ev in old(view.evs) && view.evs.Keys == old(view.evs.Keys) && view.evs == old(view.evs)[ev := FieldsOf(ev)]
      && (forall e | e in old(view.evs) && e != ev :: FieldsOf(e) == old(FieldsOf(e)))
      && ev.ev_fd == old(ev.ev_fd)
      && (Inserted in ev.ev_flags <==> Inserted in old(ev.ev_flags))
      && (Active in ev.ev_flags <==> Active in old(ev.ev_flags))
      && view.inserted == old(view.inserted) && view.active == old(view.active) && view.sigs == old(view.sigs)
    }

    twostate lemma Settled(ev: Event)
      requires old(Valid()) && Owned() && ListsAlone() && FieldsOnly(ev) && ScalarsAgree() && TablesAgree()
      ensures Valid()
    {
      hide Owned, QueuesAgree, TablesAgree, ScalarsAgree, Represents, Tailq.Valid, MinHeap.Valid;
      QueuesAlone();
      EventsAlone(ev);
      LinksAlone(ev);
    }

    twostate lemma EventsAlone(ev: Event)
      requires old(Owned()) && Owned() && old(EventsAgree()) && ListsAlone() && FieldsOnly(ev)
      ensures EventsAgree()
    {
    }

    twostate lemma LinksAlone(ev: Event)
      requires old(Owned()) && Owned() && old(EventsAgree()) && old(LinksAgree()) && ListsAlone() && FieldsOnly(ev)
      ensures LinksAgree()
    {
    }

    twostate lemma OwnedAlone()
      requires old(Owned()) && ListsAlone() && view.evs.Keys == old(view.evs.Keys)
      requires timeheap.p in Repr && evbase.fds in Repr && forall e | e in timeheap.elems :: e in Repr
      ensures Owned()
    {
    }

    // ----- the timer heap -----

    /** The facts about the heap that Valid comes to. */
    lemma BeforeTimer(ev: Event)
      requires Valid() && Core(view) && ev in view.evs
      ensures Owned() && PartsOwned() && ev in Repr && timeheap.Valid() && timeheap.elems == view.heap
      ensures (forall e | e in timeheap.elems :: e in Repr && e in view.evs) && ev.ev_flags == view.evs[ev].flags
      ensures timeheap.n == |view.heap| && timeheap.p.Length == view.cap && evbase.View() == view.poll
      ensures event_count == view.count && FieldsOf(ev) == view.evs[ev]
      ensures Timeout in ev.ev_flags <==> ev in timeheap.elems
    {
    }

    /** What an operation on the heap may change besides it. */
    twostate predicate HeapOnly(ev: Event)
      reads this, Repr
      requires ev in old(Repr) && old(PartsOwned())
    {
      && Repr == old(Repr) && event_break == old(event_break) && ncalls == old(ncalls)
      && ev_signal_added == old(ev_signal_added) && sh_old == old(sh_old)
      && unchanged(evbase) && unchanged(old(evbase.fds)) && timeheap.p == old(timeheap.p)
      && ListsAlone()
      && (forall e: Event | e in old(Repr) :: e == ev || FieldsOf(e) == old(FieldsOf(e)))
      && FieldsOf(ev) == old(FieldsOf(ev)).(flags := ev.ev_flags)
    }

    method HeapIn(ev: Event, ghost view': State)
      requires PartsOwned() && ev in Repr && (forall e | e in timeheap.elems :: e in Repr)
      requires timeheap.Valid() && ev !in timeheap.elems && timeheap.n < timeheap.p.Length
      modifies this`event_count, this`event_count_active, this`view, ev`ev_flags
      modifies timeheap, timeheap.p, timeheap.elems`min_heap_idx, ev`min_heap_idx
      ensures HeapOnly(ev) && view == view' && timeheap.Valid() && timeheap.elems == old(timeheap.elems) + {ev}
      ensures ev.ev_flags == old(ev.ev_flags) + {Timeout}
      ensures event_count == old(event_count) + (if Internal in old(ev.ev_flags) then 0 else 1)
      ensures event_count_active == old(event_count_active)
    {
      hide MinHeap.Valid;
      CountIn(ev, Timeout);
      var res := timeheap.Push(ev, false);
      assert res == 0;
      view := view';
    }

    method HeapOut(ev: Event, ghost view': State)
      requires PartsOwned() && ev in Repr && (forall e | e in timeheap.elems :: e in Repr)
      requires timeheap.Valid() && ev in timeheap.elems
      modifies this`event_count, this`event_count_active, this`view, ev`ev_flags
      modifies timeheap, timeheap.p, timeheap.elems`min_heap_idx
      ensures HeapOnly(ev) && view == view' && timeheap.Valid() && timeheap.elems == old(timeheap.elems) - {ev}
      ensures ev.ev_flags == old(ev.ev_flags) - {Timeout}
      ensures event_count == old(event_count) - (if Internal in old(ev.ev_flags) then 0 else 1)
      ensures event_count_active == old(event_count_active)
    {
      hide MinHeap.Valid;
      CountOut(ev, Timeout);
      var res := timeheap.Erase(ev);
      view := view';
    }

    /** What HeapOnly means for Valid. */
    twostate lemma Retimed(ev: Event)
      requires old(Valid()) && ev in old(view.evs) && ev in old(Repr) && old(PartsOwned()) && HeapOnly(ev)
      requires timeheap.Valid() && timeheap.elems == view.heap && forall e | e in timeheap.elems :: e in Repr
      requires view == old(view).(evs := old(view.evs)[ev := old(view.evs[ev]).(flags := ev.ev_flags)],
                                  heap := view.heap, count := event_count)
      requires forall f | f != Timeout :: f in ev.ev_flags <==> f in old(ev.ev_flags)
      requires event_count_active == old(event_count_active)
      ensures Valid()
    {
      hide EventsAgree, LinksAgree, QueuesAgree, MinHeap.Valid, ListsAlone;
      RetimedFields(ev);
      OwnedAlone();
      RetimedTables(ev);
      Settled(ev);
    }

    twostate lemma RetimedFields(ev: Event)
      requires old(Owned()) && old(EventsAgree()) && ev in old(view.evs) && ev in old(Repr) && old(PartsOwned()) && HeapOnly(ev)
      requires view == old(view).(evs := old(view.evs)[ev := old(view.evs[ev]).(flags := ev.ev_flags)],
                                  heap := view.heap, count := event_count)
      ensures ListsAlone() && Repr == old(Repr)
      ensures timeheap.p in Repr && evbase.fds in Repr
      ensures forall e | e in old(view.evs) && e != ev :: FieldsOf(e) == old(FieldsOf(e))
      ensures view.evs == old(view.evs)[ev := FieldsOf(ev)] && ev.ev_fd == old(ev.ev_fd)
    {
    }

    twostate lemma RetimedTables(ev: Event)
      requires old(Owned()) && Owned() && old(TablesAgree()) && ev in old(Repr) && old(PartsOwned()) && HeapOnly(ev)
      requires timeheap.Valid() && timeheap.elems == view.heap && view.cap == old(view.cap) && view.poll == old(view.poll)
      ensures TablesAgree()
    {
    }

    lemma TimerMoves(s: State, ev: Event)
      requires ev in s.evs
      ensures var d := if Internal in s.evs[ev].flags then 0 else 1;
              && QInsert(s, ev, Timeout) == s.(evs := s.evs[ev := s.evs[ev].(flags := s.evs[ev].flags + {Timeout})],
                                               heap := s.heap + {ev}, count := s.count + d)
              && QRemove(s, ev, Timeout) == s.(evs := s.evs[ev := s.evs[ev].(flags := s.evs[ev].flags - {Timeout})],
                                               heap := s.heap - {ev}, count := s.count - d)
    {
    }

    /** event_queue_insert for EVLIST_TIMEOUT: min_heap_push is called without looking at its
        result, and never needs memory because a slot has been reserved. */
    method InsertTimer(ev: Event)
      requires Valid() && Core(view) && ev in view.evs && Timeout !in ev.ev_flags && |view.heap| < view.cap
      modifies this, Repr
      ensures Valid() && view == QInsert(old(view), ev, Timeout) && Repr == old(Repr)
    {
      hide Owned, EventsAgree, LinksAgree, QueuesAgree, TablesAgree, ScalarsAgree, Valid, HeapOnly, MinHeap.Valid, Core, FieldsOf, QInsert;
      BeforeTimer(ev);
      FlagsKnown(ev);
      TimerMoves(view, ev);
      HeapIn(ev, QInsert(view, ev, Timeout));
      Retimed(ev);
    }

    /** event_queue_remove for EVLIST_TIMEOUT. */
    method RemoveTimer(ev: Event)
      requires Valid() && Core(view) && ev in view.evs && Timeout in ev.ev_flags
      modifies this, Repr
      ensures Valid() && view == QRemove(old(view), ev, Timeout) && Repr == old(Repr)
    {
      hide Owned, EventsAgree, LinksAgree, QueuesAgree, TablesAgree, ScalarsAgree, Valid, HeapOnly, MinHeap.Valid, Core, FieldsOf, QRemove;
      BeforeTimer(ev);
      FlagsKnown(ev);
      TimerMoves(view, ev);
      HeapOut(ev, QRemove(view, ev, Timeout));
      Retimed(ev);
    }

    // ----- plain assignments -----

    /** Of the base's objects, only the base itself and those in `touched` have changed. */
    twostate predicate OnlyTouched(new touched: set<object>)
      reads this, Repr
    {
      old(Repr) <= Repr && forall o: object | o in old(Repr) && o != this && o !in touched :: unchanged(o)
    }

    twostate predicate SameScalars()
      reads this
    {
      && event_count == old(event_count) && event_count_active == old(event_count_active)
      && event_break == old(event_break) && ncalls == old(ncalls)
      && ev_signal_added == old(ev_signal_added) && sh_old == old(sh_old)
    }

    /** Fields of `ev` other than its flags have been assigned, its deadline at most while it
        was not in the heap, and perhaps the counter of the pass. */
    twostate predicate Assigned(ev: Event)
      reads this, Repr
      requires ev in old(Repr) && old(PartsOwned())
    {
      && Repr == old(Repr) && OnlyTouched({ev})
      && ev.ev_flags == old(ev.ev_flags) && ev.ev_fd == old(ev.ev_fd) && ev.min_heap_idx == old(ev.min_heap_idx)
      && (ev in old(timeheap.elems) ==> ev.ev_timeout == old(ev.ev_timeout))
      && event_count == old(event_count) && event_count_active == old(event_count_active)
      && event_break == old(event_break) && ev_signal_added == old(ev_signal_added) && sh_old == old(sh_old)
    }

    twostate lemma Refielded(ev: Event)
      requires old(Valid()) && ev in old(view.evs) && ev in old(Repr) && old(PartsOwned()) && Assigned(ev)
      requires view == old(view).(evs := old(view.evs)[ev := FieldsOf(ev)], cell := ncalls)
      ensures Valid()
    {
      hide Owned, EventsAgree, LinksAgree, QueuesAgree, TablesAgree, ScalarsAgree, MinHeap.Valid, ListsAlone, FieldsOnly, Assigned;
      AssignedOwned(ev);
      AssignedFields(ev);
      AssignedTables(ev);
      AssignedScalars(ev);
      Settled(ev);
    }

    twostate lemma AssignedOwned(ev: Event)
      requires old(Owned()) && ev in old(Repr) && old(PartsOwned()) && Assigned(ev) && view.evs.Keys == old(view.evs.Keys)
      ensures Owned() && ListsAlone()
    {
    }

    twostate lemma AssignedFields(ev: Event)
      requires old(Owned()) && Owned() && ev in old(Repr) && old(PartsOwned()) && Assigned(ev) && ev in old(view.evs)
      requires view.evs == old(view.evs)[ev := FieldsOf(ev)]
      requires view.inserted == old(view.inserted) && view.active == old(view.active) && view.sigs == old(view.sigs)
      ensures FieldsOnly(ev)
    {
    }

    twostate lemma AssignedTables(ev: Event)
      requires old(Owned()) && Owned() && ev in old(Repr) && old(PartsOwned()) && Assigned(ev) && ev in old(view.evs)
      requires old(TablesAgree()) && view.heap == old(view.heap) && view.cap == old(view.cap) && view.poll == old(view.poll)
      ensures TablesAgree()
    {
      hide MinHeap.Valid;
      RefieldedHeap(ev);
      RefieldedParts(ev);
    }

    twostate lemma AssignedScalars(ev: Event)
      requires old(Owned()) && Owned() && ev in old(Repr) && old(PartsOwned()) && Assigned(ev) && old(ScalarsAgree())
      requires view == old(view).(evs := view.evs, cell := ncalls)
      ensures ScalarsAgree()
    {
    }

    twostate lemma RefieldedParts(ev: Event)
      requires old(Owned()) && Repr == old(Repr) && ev in old(view.evs) && OnlyTouched({ev})
      ensures ListsAlone() && evbase.fds in Repr && timeheap.p in Repr && timeheap.elems == old(timeheap.elems)
      ensures unchanged(timeheap) && timeheap.p == old(timeheap.p) && evbase.View() == old(evbase.View())
      ensures forall e | e in timeheap.elems :: e in Repr
      ensures forall e | e in old(view.evs) && e != ev :: FieldsOf(e) == old(FieldsOf(e))
    {
    }

    twostate lemma RefieldedHeap(ev: Event)
      requires old(Owned()) && Repr == old(Repr) && ev in old(view.evs) && OnlyTouched({ev})
      requires ev.min_heap_idx == old(ev.min_heap_idx)
      requires ev in old(timeheap.elems) ==> ev.ev_timeout == old(ev.ev_timeout)
      requires old(timeheap.Valid())
      ensures timeheap.Valid()
    {
      assert unchanged(timeheap) && unchanged(timeheap.p);
      assert forall e | e in timeheap.elems :: e.ev_timeout == old(e.ev_timeout) && e.min_heap_idx == old(e.min_heap_idx);
    }

    /** Scalars of the base have been assigned, and recorded. */
    twostate lemma Rescaled()
      requires old(Valid()) && Repr == old(Repr) && OnlyTouched({}) && ev_signal in old(view.evs)
      requires view == old(view).(cell := ncalls, broken := event_break, sigAdded := ev_signal_added, handlers := sh_old)
      requires event_count == old(event_count) && event_count_active == old(event_count_active)
      ensures Valid()
    {
      hide QueuesAgree, EventsAgree, LinksAgree, MinHeap.Valid, ListsAlone;
      RefieldedParts(ev_signal);
      OwnedAlone();
      RefieldedHeap(ev_signal);
      RescaledSame();
      Settled(ev_signal);
    }

    twostate lemma RescaledSame()
      requires old(Owned()) && old(EventsAgree()) && Repr == old(Repr) && OnlyTouched({}) && ev_signal in old(view.evs)
      requires view.evs == old(view.evs)
      ensures OnlyTouched({ev_signal})
      ensures FieldsOf(ev_signal) == old(FieldsOf(ev_signal)) && ev_signal.min_heap_idx == old(ev_signal.min_heap_idx)
      ensures old(view.evs)[ev_signal := FieldsOf(ev_signal)] == view.evs
    {
    }

    // ----- heap capacity, interest table and signal lists -----

    /** The heap or the interest table has been worked on, and may have a new array. */
    twostate lemma Retabled()
      requires old(Valid()) && ev_signal in old(view.evs) && SameScalars()
      requires OnlyTouched({timeheap, evbase, old(timeheap.p), old(evbase.fds)})
      requires old(Repr) <= Repr && timeheap.p in Repr && evbase.fds in Repr
      requires timeheap.Valid() && timeheap.elems == old(timeheap.elems)
      requires view == old(view).(cap := timeheap.p.Length, poll := evbase.View())
      ensures Valid()
    {
      hide Owned, QueuesAgree, EventsAgree, LinksAgree, TablesAgree, ScalarsAgree, MinHeap.Valid, ListsAlone, FieldsOf, OnlyTouched,
           FieldsOnly, EpollTable.View;
      RetabledParts();
      OwnedAlone();
      RetabledFields();
      RetabledRest();
      Settled(ev_signal);
    }

    twostate lemma RetabledFields()
      requires old(Owned()) && Owned() && ev_signal in old(view.evs) && view.evs == old(view.evs)
      requires forall e | e in old(view.evs) :: FieldsOf(e) == old(FieldsOf(e))
      requires old(view.evs)[ev_signal := FieldsOf(ev_signal)] == old(view.evs)
      requires ev_signal.ev_fd == old(ev_signal.ev_fd) && ev_signal.ev_flags == old(ev_signal.ev_flags)
      requires view.inserted == old(view.inserted) && view.active == old(view.active) && view.sigs == old(view.sigs)
      ensures FieldsOnly(ev_signal)
    {
      hide Owned, FieldsOf;
    }

    twostate lemma RetabledRest()
      requires old(Owned()) && Owned() && old(ScalarsAgree()) && old(TablesAgree()) && SameScalars()
      requires timeheap.Valid() && timeheap.elems == old(timeheap.elems)
      requires view == old(view).(cap := timeheap.p.Length, poll := evbase.View())
      ensures ScalarsAgree() && TablesAgree()
    {
      hide Owned, MinHeap.Valid, EpollTable.View;
    }

    twostate lemma RetabledParts()
      requires old(Owned()) && old(EventsAgree()) && ev_signal in old(view.evs)
      requires OnlyTouched({timeheap, evbase, old(timeheap.p), old(evbase.fds)})
      requires timeheap.elems == old(timeheap.elems) && old(Repr) <= Repr
      ensures ListsAlone() && forall e | e in timeheap.elems :: e in Repr
      ensures forall e | e in old(view.evs) :: FieldsOf(e) == old(FieldsOf(e))
      ensures old(view.evs)[ev_signal := FieldsOf(ev_signal)] == old(view.evs)
      ensures ev_signal.ev_fd == old(ev_signal.ev_fd) && ev_signal.ev_flags == old(ev_signal.ev_flags)
    {
    }

    lemma BeforeTables()
      requires Valid()
      ensures Owned() && PartsOwned() && timeheap.Valid() && timeheap.elems == view.heap
      ensures timeheap.n == |view.heap| && timeheap.p.Length == view.cap && evbase.View() == view.poll
      ensures evbase.fds.Length == |view.poll.table|
      ensures forall e | e in view.evs :: FieldsOf(e) == view.evs[e] && e in Repr
      ensures forall e | e in timeheap.elems :: e in Repr
    {
    }

    method Grow(granted: bool) returns (res: int)
      requires PartsOwned() && timeheap.Valid()
      modifies timeheap, this`Repr, this`view
      ensures view == if res == 0 then Reserved(old(view)) else old(view)
      ensures OnlyTouched({timeheap, evbase, old(timeheap.p), old(evbase.fds)}) && old(Repr) <= Repr && evbase.View() == old(evbase.View()) && SameScalars() && fresh(Repr - old(Repr)) && PartsOwned()
      ensures timeheap.Valid() && timeheap.elems == old(timeheap.elems) && (res == 0 || res == -1)
      ensures res == 0 <==> old(timeheap.n + 1 <= timeheap.p.Length) || granted
      ensures timeheap.p.Length == if res == 0 then Capacity(old(timeheap.p.Length), old(timeheap.n) + 1) else old(timeheap.p.Length)
    {
      hide MinHeap.Valid, Capacity;
      res := timeheap.Reserve(1 + timeheap.n, granted);
      Repr := Repr + {timeheap.p};
      view := if res == 0 then Reserved(view) else view;
    }

    /** min_heap_reserve(timeheap, 1 + n) */
    method ReserveOne(granted: bool) returns (res: int)
      requires Valid() && ev_signal in view.evs
      modifies this, Repr
      ensures Valid() && fresh(Repr - old(Repr)) && old(Repr) <= Repr && (res == 0 || res == -1)
      ensures res == 0 <==> |old(view.heap)| < old(view.cap) || granted
      ensures view == if res == 0 then Reserved(old(view)) else old(view)
    {
      hide Owned, EventsAgree, LinksAgree, QueuesAgree, TablesAgree, ScalarsAgree, Valid, MinHeap.Valid, Capacity, EpollTable.View,
           OnlyTouched, SameScalars;
      BeforeTables();
      res := Grow(granted);
      Retabled();
    }

    method TableIn(ev: Event, env: Env, ghost view': State) returns (res: int)
      requires PartsOwned() && timeheap.Valid() && (forall e | e in timeheap.elems :: e in Repr) && ev in Repr && ev.ev_fd >= 0 && |evbase.View().table| > 0
      modifies evbase, evbase.fds, this`Repr, this`view
      ensures timeheap.Valid() && timeheap.elems == old(timeheap.elems) && timeheap.p.Length == old(timeheap.p.Length)
      ensures OnlyTouched({timeheap, evbase, old(timeheap.p), old(evbase.fds)}) && old(Repr) <= Repr && view == view' && SameScalars() && fresh(Repr - old(Repr)) && PartsOwned()
      ensures (evbase.View(), res == 0) == PollAdd(old(evbase.View()), ev, old(ev.ev_fd), old(ev.ev_events), env.tableGrant, env.ctl)
      ensures res == 0 || res == -1
    {
      hide PollAdd;
      res := evbase.Add(ev, env.tableGrant, env.ctl);
      Repr := Repr + {evbase.fds};
      view := view';
    }

    method TableOut(ev: Event, accept: bool, ghost view': State) returns (res: int)
      requires PartsOwned() && timeheap.Valid() && (forall e | e in timeheap.elems :: e in Repr) && ev in Repr && ev.ev_fd >= 0
      requires Read in ev.ev_events || Write in ev.ev_events
      modifies evbase, evbase.fds, this`view
      ensures timeheap.Valid() && timeheap.elems == old(timeheap.elems) && timeheap.p.Length == old(timeheap.p.Length)
      ensures OnlyTouched({timeheap, evbase, old(timeheap.p), old(evbase.fds)}) && Repr == old(Repr) && view == view' && SameScalars() && PartsOwned()
      ensures (evbase.View(), res == 0) == PollDel(old(evbase.View()), old(ev.ev_fd), old(ev.ev_events), accept)
      ensures res == 0 || res == -1
    {
      hide PollDel;
      res := evbase.Del(ev, accept);
      view := view';
    }

    /** epoll_add and epoll_del of a read or write event. */
    method PollIn(ev: Event, env: Env) returns (res: int)
      requires Valid() && ev_signal in view.evs && ev in view.evs && ev.ev_fd >= 0 && |view.poll.table| > 0
      modifies this, Repr
      ensures Valid() && fresh(Repr - old(Repr)) && old(Repr) <= Repr && (res == 0 || res == -1)
      ensures (view, res == 0) == IoAdd(old(view), ev, env)
    {
      hide Owned, EventsAgree, LinksAgree, QueuesAgree, TablesAgree, ScalarsAgree, Valid, MinHeap.Valid, PollAdd, EpollTable.View,
           OnlyTouched, SameScalars;
      BeforeTables();
      res := TableIn(ev, env, IoAdd(view, ev, env).0);
      Retabled();
    }

    method PollOut(ev: Event, accept: bool) returns (res: int)
      requires Valid() && ev_signal in view.evs && ev in view.evs && ev.ev_fd >= 0
      requires Read in ev.ev_events || Write in ev.ev_events
      modifies this, Repr
      ensures Valid() && Repr == old(Repr) && (res == 0 || res == -1)
      ensures (view, res) == IoDel(old(view), ev, accept)
    {
      hide Owned, EventsAgree, LinksAgree, QueuesAgree, TablesAgree, ScalarsAgree, Valid, MinHeap.Valid, PollDel, EpollTable.View,
           OnlyTouched, SameScalars;
      BeforeTables();
      res := TableOut(ev, accept, IoDel(view, ev, accept).0);
      Retabled();
    }

    method SignalIn(ev: Event, queue: Tailq, ghost view': State)
      requires PartsOwned() && ev in Repr && queue in Repr && ev.signal in Repr
      requires queue.Valid() && (forall l | l in queue.elems :: l.on == queue)
      requires ev.signal !in queue.elems && ev.signal.on == null
      modifies this`view, queue, queue.elems`next, ev.signal`next, ev.signal`prev, ev.signal`on
      ensures Relinked(ev, queue, ev.signal) && view == view' && SameScalars() && ev.ev_flags == old(ev.ev_flags)
      ensures queue.Valid() && queue.elems == old(queue.elems) + [ev.signal] && ev.signal.on == queue
    {
      hide Tailq.Valid;
      queue.InsertTail(ev.signal);
      view := view';
    }

    method SignalOut(ev: Event, queue: Tailq, ghost view': State)
      requires PartsOwned() && ev in Repr && queue in Repr && ev.signal in Repr
      requires queue.Valid() && (forall l | l in queue.elems :: l.on == queue)
      requires ev.signal in queue.elems
      modifies this`view, queue, queue.elems`next, queue.elems`prev, ev.signal`on
      ensures Relinked(ev, queue, ev.signal) && view == view' && SameScalars() && ev.ev_flags == old(ev.ev_flags)
      ensures queue.Valid() && queue.elems == Without(old(queue.elems), ev.signal) && ev.signal.on == null
    {
      hide Tailq.Valid;
      queue.Remove(ev.signal);
      view := view';
    }

    lemma BeforeSignal(ev: Event, sig: int)
      requires Valid() && Core(view) && ev in view.evs && Signal in ev.ev_events && |view.sigs| == NSIG && sig == ev.ev_fd
      ensures Owned() && PartsOwned() && ev in Repr && ev.signal in Repr && |evsigevents| == NSIG && 0 <= sig < NSIG
      ensures evsigevents[sig] in Repr && evsigevents[sig].Valid() && view.evs[ev].fd == sig
      ensures forall l | l in evsigevents[sig].elems :: l.on == evsigevents[sig] && l in Repr
      ensures forall x | x in view.sigs[sig] :: x.signal == ev.signal ==> x == ev
      ensures ev.ev_flags == view.evs[ev].flags
      ensures Represents(evsigevents[sig], view.sigs[sig], SignalLink)
      ensures ev !in view.sigs[sig] ==> ev.signal.on == null && ev.signal !in evsigevents[sig].elems
      ensures ev in view.sigs[sig] ==> ev.signal in evsigevents[sig].elems
    {
      hide TablesAgree, ScalarsAgree, Counts, BaseInv.Lists;
      ShapeOf(view, ev);
      var q, es := evsigevents[sig], view.sigs[sig];
      if ev in es {
        var k :| 0 <= k < |es| && es[k] == ev;
        assert q.elems[k] == ev.signal;
      }
    }

    /** A signal-list operation done on both sides. */
    twostate lemma Resigned(ev: Event, new sig: nat, new list: seq<Event>)
      requires old(Valid()) && ev in old(view.evs) && sig < |evsigevents| && sig < |old(view.sigs)| && old(view.evs[ev]).fd == sig
      requires old(PartsOwned()) && ev in old(Repr) && ev.signal in old(Repr) && evsigevents[sig] in old(Repr)
      requires Relinked(ev, evsigevents[sig], ev.signal) && Represents(evsigevents[sig], list, SignalLink)
      requires forall l | l in evsigevents[sig].elems :: l in old(evsigevents[sig].elems) || l == ev.signal
      requires old(ev.signal.on) == null || old(ev.signal.on) == evsigevents[sig]
      requires ev.signal.on == null <==> ev !in list
      requires forall x | x != ev :: x in list <==> x in old(view.sigs)[sig]
      requires SameScalars() && ev.ev_flags == old(ev.ev_flags) && old(ev.ev_flags) == old(view.evs[ev]).flags
      requires view == old(view).(sigs := old(view.sigs)[sig := list])
      ensures Valid()
    {
      hide Owned, EventsAgree, LinksAgree, QueuesAgree, TablesAgree, Relinked, Represents, Tailq.Valid, ListsMatch;
      var queue, link := evsigevents[sig], ev.signal;
      assert view.evs == old(view.evs)[ev := old(view.evs[ev]).(flags := ev.ev_flags)];
      OwnedFrame(ev, queue, link);
      EventsFrame(ev, queue, link);
      TablesFrame(ev, queue, link);
      ResignedLinks(ev, sig, queue);
      LinksFrame(ev, queue, link);
      ResignedLists(ev, sig, list);
      QueuesFrame(ev, queue, link);
      MovedScalars(ev, queue, link);
    }

    twostate lemma ResignedLinks(ev: Event, new sig: nat, new queue: Tailq)
      requires old(Valid()) && ev in old(view.evs) && queue in old(Repr)
      requires old(PartsOwned()) && ev in old(Repr) && ev.signal in old(Repr)
      requires Relinked(ev, queue, ev.signal) && ev.ev_flags == old(ev.ev_flags)
      ensures ev.inserted.on == null <==> Inserted !in ev.ev_flags
      ensures ev.active.on == null <==> Active !in ev.ev_flags
    {
    }

    twostate lemma ResignedLists(ev: Event, new sig: nat, new list: seq<Event>)
      requires old(Owned()) && Owned() && old(QueuesAgree()) && sig < |evsigevents|
      requires Represents(evsigevents[sig], list, SignalLink) && sig < |old(view.sigs)|
      requires view == old(view).(sigs := old(view.sigs)[sig := list])
      ensures ListsMatch(evsigevents[sig])
    {
      hide Represents;
    }

    /** The TAILQ part of evsignal_add and evsignal_del. */
    method EnlistSignal(ev: Event)
      requires Valid() && Core(view) && ev in view.evs && Signal in ev.ev_events && |view.sigs| == NSIG
      requires ev !in ListAt(view.sigs, ev.ev_fd)
      modifies this, Repr
      ensures Valid() && view == Enlist(old(view), ev) && Repr == old(Repr)
    {
      hide Owned, EventsAgree, LinksAgree, QueuesAgree, TablesAgree, ScalarsAgree, Relinked, Tailq.Valid, Core, Threads;
      var sig := ev.ev_fd;
      BeforeSignal(ev, sig);
      ThreadsAppend(evsigevents[sig].elems, view.sigs[sig], SignalLink, ev);
      SignalIn(ev, evsigevents[sig], Enlist(view, ev));
      Resigned(ev, sig, old(view.sigs[sig]) + [ev]);
    }

    method DelistSignal(ev: Event)
      requires Valid() && Core(view) && ev in view.evs && Signal in ev.ev_events && |view.sigs| == NSIG
      requires ev in ListAt(view.sigs, ev.ev_fd) && NoDup(ListAt(view.sigs, ev.ev_fd))
      modifies this, Repr
      ensures Valid() && Repr == old(Repr)
      ensures view == old(view).(sigs := SetList(old(view.sigs), old(ev.ev_fd), Without(ListAt(old(view.sigs), old(ev.ev_fd)), ev)))
    {
      hide Owned, EventsAgree, LinksAgree, QueuesAgree, TablesAgree, ScalarsAgree, Relinked, Tailq.Valid, Core, Threads, Without;
      var sig := ev.ev_fd;
      BeforeSignal(ev, sig);
      ghost var list := Without(view.sigs[sig], ev);
      ThreadsWithout(evsigevents[sig].elems, view.sigs[sig], SignalLink, ev);
      OnlyMembers(evsigevents[sig].elems, ev.signal);
      WithoutMembers(view.sigs[sig], ev);
      SignalOut(ev, evsigevents[sig], view.(sigs := view.sigs[sig := list]));
      Resigned(ev, sig, list);
    }

    // ----- event_del -----

    lemma FieldsKnown(ev: Event)
      requires Valid() && ev in view.evs
      ensures FieldsOf(ev) == view.evs[ev] && Of(view, ev) == view.evs[ev] && ncalls == view.cell && ev in Repr
      ensures ev_signal == view.sigEvent && ev_signal_added == view.sigAdded && sh_old == view.handlers && this in Repr
      ensures event_break == view.broken && event_count_active == view.countActive
      ensures |activequeues| == |view.active|
    {
    }

    /** if (ev->ev_ncalls && ev->ev_pncalls) *ev->ev_pncalls = 0 */
    method CancelCalls(ev: Event)
      requires Valid() && ev in view.evs && ev_signal in view.evs
      modifies this`ncalls, this`view
      ensures Valid() && view == Cancel(old(view), ev)
    {
      hide Owned, EventsAgree, LinksAgree, QueuesAgree, TablesAgree, ScalarsAgree, Valid;
      FieldsKnown(ev);
      if ev.ev_ncalls != 0 && ev.ev_pncalls != 0 {
        ncalls := Written(ncalls, ev.ev_pncalls);
        view := view.(cell := ncalls);
        Rescaled();
      }
    }

    lemma FirstKnown(sig: nat)
      requires Valid() && sig < |view.sigs|
      ensures |evsigevents| == |view.sigs|
      ensures evsigevents[sig].first == null <==> view.sigs[sig] == []
    {
    }

    /** evsignal_del */
    method SignalDel(ev: Event) returns (res: int)
      requires Valid() && Core(view) && ev in view.evs && Signal in ev.ev_events && |view.sigs| == NSIG && ev_signal in view.evs
      requires ev in ListAt(view.sigs, ev.ev_fd) && NoDup(ListAt(view.sigs, ev.ev_fd))
      modifies this, Repr
      ensures Valid() && Repr == old(Repr) && view == SigDel(old(view), ev) && res == 0
    {
      hide Owned, EventsAgree, LinksAgree, QueuesAgree, TablesAgree, ScalarsAgree, Valid, Core, Without;
      FieldsKnown(ev);
      var sig := ev.ev_fd;
      SignalInRange(ev);
      DelistSignal(ev);
      FirstKnown(sig);
      assert ListAt(view.sigs, sig) == Without(ListAt(old(view.sigs), sig), ev);
      if evsigevents[sig].first != null {
        return 0;
      }
      FieldsKnown(ev_signal);
      label Listed:
      sh_old := Restore(sh_old, sig);
      view := view.(handlers := sh_old);
      Rescaled@Listed();
      return 0;
    }

    lemma SignalInRange(ev: Event)
      requires Valid() && Core(view) && ev in view.evs && Signal in ev.ev_events
      ensures 0 <= ev.ev_fd < NSIG
    {
      ShapeOf(view, ev);
    }

    /** What the backend needs to know of an event it is to forget. */
    ghost predicate Forgettable(s: State, e: Event) {
      && e in s.evs && |s.sigs| == NSIG && s.sigEvent in s.evs
      && (if Signal in s.evs[e].events then e in ListAt(s.sigs, s.evs[e].fd) && NoDup(ListAt(s.sigs, s.evs[e].fd))
          else s.evs[e].fd >= 0 && (Read in s.evs[e].events || Write in s.evs[e].events))
    }

    lemma InsertedForgettable(s: State, e: Event)
      requires Inv(s) && e in s.evs && Inserted in s.evs[e].flags
      ensures Forgettable(s, e)
    {
      ShapeOf(s, e);
      var w :| w in s.evs[e].events * (IO_EVENTS + {Signal});
      assert w in s.evs[e].events * IO_EVENTS || w == Signal;
    }

    /** evsel->del */
    method SelectorDel(ev: Event, accept: bool) returns (res: int)
      requires Valid() && Core(view) && Forgettable(view, ev)
      modifies this, Repr
      ensures Valid() && Repr == old(Repr) && (view, res) == SelDel(old(view), ev, accept)
    {
      hide Owned, EventsAgree, LinksAgree, QueuesAgree, TablesAgree, ScalarsAgree, Valid, Core, Without, IoDel, SigDel;
      FieldsKnown(ev);
      if Signal in ev.ev_events {
        res := SignalDel(ev);
      } else {
        res := PollOut(ev, accept);
      }
    }

    /** if (ev->ev_flags & queue) event_queue_remove(base, ev, queue) */
    method RemoveIfFlagged(ev: Event, flag: Flag)
      requires Valid() && Core(view) && ev in view.evs && flag in QUEUES
      modifies this, Repr
      ensures Valid() && Core(view) && Repr == old(Repr) && view == RemoveIfOn(old(view), ev, flag) && ev in view.evs
    {
      hide Owned, EventsAgree, LinksAgree, QueuesAgree, TablesAgree, ScalarsAgree, Valid, Core, QRemove;
      FieldsKnown(ev);
      RemoveIfOnCore(view, ev, flag);
      if flag in ev.ev_flags {
        if flag == Timeout {
          RemoveTimer(ev);
        } else {
          RemoveList(ev, flag);
        }
      }
    }

    /** event_del; the kernel refuses what epoll_del asks if `accept` is false. */
    method EventDel(ev: Event, accept: bool := true) returns (res: int)
      requires Valid() && Inv(view) && ev in view.evs
      modifies this, Repr
      ensures Valid() && Repr == old(Repr) && (view, res) == Del(old(view), ev, accept)
    {
      hide Owned, EventsAgree, LinksAgree, QueuesAgree, TablesAgree, ScalarsAgree, Valid, Core, Wired, QRemove, SelDel, Forgettable,
           RemoveIfOn;
      FieldsKnown(ev);
      SelfPipeIsKnown(view);
      CoreSame(view, Cancel(view, ev));
      CancelCalls(ev);
      RemoveIfFlagged(ev, Timeout);
      RemoveIfFlagged(ev, Active);
      assert view == Dequeue(old(view), ev);
      DequeueBackend(old(view), ev);
      FieldsKnown(ev);
      if Inserted in ev.ev_flags {
        QRemoveCore(view, ev, Inserted);
        DequeuedForgettable(old(view), ev);
        RemoveList(ev, Inserted);
        res := SelectorDel(ev, accept);
        return;
      }
      return 0;
    }

    lemma DequeuedForgettable(s: State, ev: Event)
      requires Inv(s) && ev in s.evs && Inserted in s.evs[ev].flags
      ensures Forgettable(QRemove(Dequeue(s, ev), ev, Inserted), ev)
    {
      hide Core, Wired, Dequeue, Without;
      InsertedForgettable(s, ev);
      DequeueCore(s, ev);
      DequeueBackend(s, ev);
    }

    // ----- event_add -----

    lemma NestedAdd(s: State, env: Env)
      requires Inv(s)
      ensures Add(s, s.sigEvent, None, env) == IoInsert(s, s.sigEvent, env)
      ensures IoInsert(s, s.sigEvent, env).1 == 0 || IoInsert(s, s.sigEvent, env).1 == -1
      ensures !s.sigAdded ==> AddOk'(s, s.sigEvent)
      ensures IoInsert(s, s.sigEvent, env).0.sigs == s.sigs
    {
      hide Core, Slots, Signals, Agree, PollAdd, FreeFor;
      if !s.sigAdded { SelfPipeFree(s); }
    }

    /** The part of evsignal_add that adds the event on the self-pipe, by a nested event_add. */
    method WatchPipe(env: Env) returns (res: int)
      requires Valid() && Inv(view) && !ev_signal_added
      modifies this, Repr
      ensures Valid() && fresh(Repr - old(Repr)) && old(Repr) <= Repr && Inv(view)
      ensures var (s, r) := IoInsert(old(view), old(view).sigEvent, env);
              res == r && view == if r == 0 then s.(sigAdded := true) else s
      ensures res == 0 || res == -1
      ensures forall e | e in old(view).evs && e != old(view).sigEvent :: e in view.evs && view.evs[e] == old(view).evs[e]
      ensures view.sigs == old(view).sigs
      decreases 0, 4
    {
      hide Owned, EventsAgree, LinksAgree, QueuesAgree, TablesAgree, ScalarsAgree, Valid, Inv, IoInsert, AddOk', Add;
      PipeKnown();
      FieldsKnown(ev_signal);
      NestedAdd(view, env);
      SelfPipeInsertInv(view, env);
      PipeNoSignal(view);
      res := EventAdd(ev_signal, None, env);
      if res == 0 {
        FieldsKnown(ev_signal);
        label Watched:
        ev_signal_added := true;
        view := view.(sigAdded := true);
        Rescaled@Watched();
      }
    }

    lemma PipeKnown()
      requires Valid() && Inv(view)
      ensures ev_signal == view.sigEvent && ev_signal in view.evs
    {
    }

    lemma PipeNoSignal(s: State)
      requires Inv(s)
      ensures s.sigEvent in s.evs && Signal !in s.evs[s.sigEvent].events
    {
    }

    /** evsignal_add */
    method SignalAdd(ev: Event, env: Env) returns (res: int)
      requires Valid() && Inv(view) && ev in view.evs && Signal in ev.ev_events && Inserted !in ev.ev_flags
      modifies this, Repr
      ensures Valid() && fresh(Repr - old(Repr)) && old(Repr) <= Repr
      ensures (view, res == 0) == SigAdd(old(view), ev, env) && (res == 0 || res == -1)
      decreases 1, 0
    {
      hide Owned, EventsAgree, LinksAgree, QueuesAgree, TablesAgree, ScalarsAgree, Valid, Inv, IoInsert, Enlist, SigAdd;
      FieldsKnown(ev);
      SignalFacts(view, ev);
      SigAddCases(view, ev, env);
      var sig := ev.ev_fd;
      FirstKnown(sig);
      if evsigevents[sig].first == null {
        if !env.sigact {
          SetHandler(sig, Forget(sh_old, sig));
          return -1;
        }
        SetHandler(sig, Install(sh_old, sig));
        FieldsKnown(ev);
        if !ev_signal_added {
          var r := WatchPipe(env);
          if r != 0 {
            return -1;
          }
        }
      }
      FieldsKnown(ev);
      SignalFacts(view, ev);
      EnlistSignal(ev);
      return 0;
    }

    /** SigAdd, case by case. */
    lemma SigAddCases(s: State, e: Event, env: Env)
      ensures var sig := Of(s, e).fd;
              var s1 := s.(handlers := Install(s.handlers, sig));
              var (s2, r) := IoInsert(s1, s1.sigEvent, env);
              && (ListAt(s.sigs, sig) != [] ==> SigAdd(s, e, env) == (Enlist(s, e), true))
              && (ListAt(s.sigs, sig) == [] && !env.sigact ==>
                    SigAdd(s, e, env) == (s.(handlers := Forget(s.handlers, sig)), false))
              && (ListAt(s.sigs, sig) == [] && env.sigact && s.sigAdded ==> SigAdd(s, e, env) == (Enlist(s1, e), true))
              && (ListAt(s.sigs, sig) == [] && env.sigact && !s.sigAdded && r == 0 ==>
                    SigAdd(s, e, env) == (Enlist(s2.(sigAdded := true), e), true))
              && (ListAt(s.sigs, sig) == [] && env.sigact && !s.sigAdded && r != 0 ==> SigAdd(s, e, env) == (s2, false))
    {
      hide IoInsert, Enlist;
    }

    /** _evsignal_set_handler for a signal without events, with the outcome `h`. */
    method SetHandler(sig: int, h: Handlers)
      requires Valid() && Inv(view) && ListAt(view.sigs, sig) == []
      requires h == Install(sh_old, sig) || h == Forget(sh_old, sig)
      modifies this`sh_old, this`view
      ensures Valid() && Inv(view) && view == old(view).(handlers := h)
    {
      hide Owned, EventsAgree, LinksAgree, QueuesAgree, TablesAgree, ScalarsAgree, Valid, Core, Wired;
      PipeKnown();
      FieldsKnown(ev_signal);
      NoneToHandle(view, sig, h);
      sh_old := h;
      view := view.(handlers := h);
      Rescaled();
      SamesInv(old(view), view);
    }

    lemma NoneToHandle(s: State, sig: int, h: Handlers)
      requires ListAt(s.sigs, sig) == [] && (h == Install(s.handlers, sig) || h == Forget(s.handlers, sig))
      ensures StillHandled(s, s.(handlers := h))
    {
    }

    lemma SignalFacts(s: State, e: Event)
      requires Inv(s) && e in s.evs && Signal in s.evs[e].events && Inserted !in s.evs[e].flags
      ensures 0 <= s.evs[e].fd < NSIG == |s.sigs| && s.sigEvent in s.evs && s.sigEvent != e
      ensures e !in ListAt(s.sigs, s.evs[e].fd) && Core(s)
    {
      hide Core, Slots, Agree;
      ShapeOf(s, e);
      assert e in s.sigs[s.evs[e].fd] ==> InterestedIn(s, e, s.evs[e].fd, Signal);
    }

    ghost predicate AddOk'(s: State, e: Event) {
      e in s.evs && (Wants(s.evs[e]) ==> FreeFor(s, e))
    }

    lemma WantsFacts(s: State, e: Event)
      requires Inv(s) && e in s.evs && Wants(s.evs[e])
      ensures Inserted !in s.evs[e].flags && s.sigEvent in s.evs && |s.poll.table| > 0
      ensures Signal !in s.evs[e].events ==> s.evs[e].fd >= 0
    {
      ShapeOf(s, e);
      assert Inserted !in s.evs[e].flags * {Inserted, Active};
      var w :| w in s.evs[e].events * (IO_EVENTS + {Signal});
      assert w in s.evs[e].events * IO_EVENTS || w == Signal;
    }

    /** evsel->add */
    method SelectorAdd(ev: Event, env: Env) returns (res: int)
      requires Valid() && Inv(view) && AddOk'(view, ev) && Wants(view.evs[ev])
      modifies this, Repr
      ensures Valid() && fresh(Repr - old(Repr)) && old(Repr) <= Repr
      ensures (view, res == 0) == SelAdd(old(view), ev, env) && (res == 0 || res == -1)
      decreases if Signal in ev.ev_events then 1 else 0, 1
    {
      hide Owned, EventsAgree, LinksAgree, QueuesAgree, TablesAgree, ScalarsAgree, Valid, Core, Wired, IoAdd, SigAdd;
      FieldsKnown(ev);
      WantsFacts(view, ev);
      if Signal in ev.ev_events {
        res := SignalAdd(ev, env);
      } else {
        res := PollIn(ev, env);
      }
    }

    /** The backend half of event_add. */
    method Insertion(ev: Event, env: Env) returns (res: int)
      requires Valid() && Inv(view) && AddOk'(view, ev)
      modifies this, Repr
      ensures Valid() && fresh(Repr - old(Repr)) && old(Repr) <= Repr
      ensures (view, res) == Insert(old(view), ev, env) && (res == 0 || res == -1)
      decreases if Signal in ev.ev_events then 1 else 0, 2
    {
      hide Owned, EventsAgree, LinksAgree, QueuesAgree, TablesAgree, ScalarsAgree, Valid, Core, Wired, SelAdd, QInsert;
      FieldsKnown(ev);
      if ev.ev_events * {Read, Write, Signal} != {} && ev.ev_flags * {Inserted, Active} == {} {
        assert {Read, Write, Signal} == IO_EVENTS + {Signal};
        SelAddCore(view, ev, env);
        res := SelectorAdd(ev, env);
        if res != -1 {
          FieldsKnown(ev);
          InsertList(ev, Inserted);
        }
        return;
      }
      assert {Read, Write, Signal} == IO_EVENTS + {Signal};
      return 0;
    }

    /** What evsel->add leaves is fit for event_queue_insert. */
    lemma SelAddCore(s: State, e: Event, env: Env)
      requires Inv(s) && AddOk'(s, e) && Wants(s.evs[e])
      ensures var (s', ok) := SelAdd(s, e, env);
              Core(s') && e in s'.evs && Inserted !in s'.evs[e].flags
    {
      hide Core, Slots, Signals, Agree, PollAdd, IoInsert, Enlist;
      WantsFacts(s, e);
      if Signal in s.evs[e].events {
        SigAddCases(s, e, env);
        var s1 := s.(handlers := Install(s.handlers, s.evs[e].fd));
        SamesInv(s, s1);
        if !s1.sigAdded { SelfPipeInsertInv(s1, env); PipeNoSignal(s); }
        var (s2, r) := IoInsert(s1, s1.sigEvent, env);
        CoreSame(s, s.(handlers := Forget(s.handlers, s.evs[e].fd)));
        EnlistCore(s, e);
        EnlistCore(s1, e);
        if !s1.sigAdded && r == 0 { EnlistCore(s2.(sigAdded := true), e); }
      } else {
        CoreSame(s, IoAdd(s, e, env).0);
      }
    }

    lemma EnlistCore(s: State, e: Event)
      requires Core(s)
      ensures Core(Enlist(s, e)) && Enlist(s, e).evs == s.evs
    {
      hide Core;
      CoreSame(s, Enlist(s, e));
    }

    /** Dropping the old deadline and an activation it caused. */
    method Unscheduling(ev: Event)
      requires Valid() && Core(view) && ev in view.evs && ev_signal in view.evs
      modifies this, Repr
      ensures Valid() && Repr == old(Repr) && view == Unschedule(old(view), ev) && Core(view)
    {
      hide Owned, EventsAgree, LinksAgree, QueuesAgree, TablesAgree, ScalarsAgree, Valid, Core, QRemove, RemoveIfOn;
      RemoveIfOnBackend(view, ev, Timeout);
      RemoveIfOnCore(view, ev, Timeout);
      RemoveIfFlagged(ev, Timeout);
      FieldsKnown(ev);
      if Active in ev.ev_flags && TimedOut in ev.ev_res {
        CoreSame(view, Cancel(view, ev));
        CancelCalls(ev);
        FieldsKnown(ev);
        QRemoveCore(view, ev, Active);
        RemoveList(ev, Active);
      }
    }

    method PutTimeout(ev: Event, deadline: Timeval, ghost view': State)
      requires PartsOwned() && ev in Repr && ev !in timeheap.elems
      modifies ev`ev_timeout, this`view
      ensures Assigned(ev) && view == view' && ncalls == old(ncalls) && FieldsOf(ev) == old(FieldsOf(ev)).(timeout := deadline)
    {
      ev.ev_timeout := deadline;
      view := view';
    }

    method SetTimeout(ev: Event, deadline: Timeval)
      requires Valid() && Core(view) && ev in view.evs && Timeout !in view.evs[ev].flags
      modifies ev`ev_timeout, this`view
      ensures Valid() && Core(view) && view == Put(old(view), ev, Of(old(view), ev).(timeout := deadline))
    {
      hide Owned, EventsAgree, LinksAgree, QueuesAgree, TablesAgree, ScalarsAgree, Valid, Core, Assigned, FieldsOf;
      FieldsKnown(ev);
      BeforeTimer(ev);
      DeadlineCore(view, ev, deadline);
      PutTimeout(ev, deadline, Put(view, ev, Of(view, ev).(timeout := deadline)));
      Refielded(ev);
    }

    lemma DeadlineCore(s: State, e: Event, deadline: Timeval)
      requires Core(s) && e in s.evs
      ensures Core(Put(s, e, s.evs[e].(timeout := deadline)))
    {
      hide Core;
      ShapeOf(s, e);
      TimeoutShape(s, s.evs[e], deadline);
      CoreFrame(s, Put(s, e, s.evs[e].(timeout := deadline)), e);
    }

    /** The timeout half of event_add. */
    method Scheduling(ev: Event, tv: Timeval, now: Timeval)
      requires Valid() && Core(view) && ev in view.evs && ev_signal in view.evs
      requires Timeout !in view.evs[ev].flags ==> |view.heap| < view.cap
      modifies this, Repr
      ensures Valid() && Repr == old(Repr) && view == Schedule(old(view), ev, tv, now)
    {
      hide Owned, EventsAgree, LinksAgree, QueuesAgree, TablesAgree, ScalarsAgree, Valid, Core, QInsert, Unschedule;
      UnscheduleInv(view, ev);
      Unscheduling(ev);
      FieldsKnown(ev);
      SetTimeout(ev, TimerAdd(now, tv));
      FieldsKnown(ev);
      InsertTimer(ev);
    }

    /** event_add; the clock is read into env.now. */
    method EventAdd(ev: Event, tv: Option<Timeval>, env: Env) returns (res: int)
      requires Valid() && Inv(view) && AddOk'(view, ev) && (tv.Some? ==> ev != view.sigEvent)
      modifies this, Repr
      ensures Valid() && fresh(Repr - old(Repr)) && old(Repr) <= Repr
      ensures (view, res) == Add(old(view), ev, tv, env)
      decreases if Signal in ev.ev_events then 1 else 0, 3
    {
      hide Owned, EventsAgree, LinksAgree, QueuesAgree, TablesAgree, ScalarsAgree, Valid, Core, Wired, Insert, Schedule, FreeFor, Wants;
      FieldsKnown(ev);
      PipeKnown();
      if tv.Some? && Timeout !in ev.ev_flags {
        var r := ReserveOne(env.heapGrant);
        if r == -1 {
          return -1;
        }
        ReservedReady(old(view), ev);
      }
      FieldsKnown(ev);
      InsertReady(view, ev, env, tv.Some?);
      res := Insertion(ev, env);
      if res != -1 && tv.Some? {
        Scheduling(ev, tv.value, env.now);
      }
    }

    lemma ReservedReady(s: State, ev: Event)
      requires Inv(s) && AddOk'(s, ev)
      ensures Inv(Reserved(s)) && AddOk'(Reserved(s), ev) && |Reserved(s).heap| < Reserved(s).cap
    {
      hide Core, Wired;
      SamesInv(s, Reserved(s));
      FreeForSame(s, Reserved(s), ev);
    }

    lemma InsertReady(s: State, ev: Event, env: Env, timed: bool)
      requires Inv(s) && AddOk'(s, ev) && (timed ==> ev != s.sigEvent)
      ensures var s' := Insert(s, ev, env).0;
              && ev in s'.evs && s'.cap == s.cap && s'.heap == s.heap && s'.sigEvent == s.sigEvent && s.sigEvent in s'.evs
              && (Timeout in s'.evs[ev].flags <==> Timeout in s.evs[ev].flags)
              && (timed ==> Core(s'))
    {
      hide Core, Wired, Insert, Slots, Signals, Agree;
      SelfPipeIsKnown(s);
      InsertOnlyInserts(s, ev, env);
      if timed { InsertInv(s, ev, env); }
    }

    // ----- event_base_set, event_active, event_priority_set, event_base_loopbreak -----

    /** An event the base has never seen. */
    ghost predicate Foreign(ev: Event)
      reads this, ev, ev.inserted, ev.active, ev.signal
    {
      && ev !in view.evs && ev !in Repr && ev.inserted !in Repr && ev.active !in Repr && ev.signal !in Repr
      && ev.HasLinks() && ev.inserted.on == null && ev.active.on == null && ev.signal.on == null
      && ev.ev_timeout == Timeval(0, 0)
    }

    /** event_base_set: of an event that event_set has initialised, and that is new to the
        base or has been idle since. */
    method Attach(ev: Event) returns (res: int)
      requires Valid() && Inv(view)
      requires if ev in view.evs then ev != view.sigEvent
               else Foreign(ev) && (ev.ev_flags == {Init} ==> ev.ev_res == {} && ev.ev_ncalls == 0 && ev.ev_pncalls == 0)
      modifies this`view, this`Repr, ev`ev_pri
      ensures Valid() && res == (if old(ev.ev_flags) == {Init} then 0 else -1)
      ensures ev.ev_pri == if res == 0 then |activequeues| / 2 else old(ev.ev_pri)
      ensures view == if res != 0 then old(view)
                      else if ev in old(view).evs then Put(old(view), ev, Of(old(view), ev).(pri := |old(view).active| / 2))
                      else AttachTo(old(view), ev, old(ev.ev_fd), old(ev.ev_events))
      ensures Repr == if res != 0 || ev in old(view).evs then old(Repr) else old(Repr) + {ev, ev.inserted, ev.active, ev.signal}
    {
      hide Owned, EventsAgree, LinksAgree, QueuesAgree, TablesAgree, ScalarsAgree, Valid, Core, Wired, Assigned, OnlyTouched, SameScalars,
           FieldsOf;
      if ev.ev_flags != {Init} {
        return -1;
      }
      PipeKnown();
      FieldsKnown(ev_signal);
      BeforeTables();
      ghost var known := ev in view.evs;
      ghost var f := FieldsOf(ev).(pri := |activequeues| / 2);
      if known {
        FieldsKnown(ev);
        BeforeTimer(ev);
      } else {
        NotListed(view, ev);
        Unseen(view, ev, f);
      }
      PutBase(ev, if known then Put(view, ev, f) else AttachTo(view, ev, ev.ev_fd, ev.ev_events), known);
      FieldsAre(ev);
      if known {
        Refielded(ev);
      } else {
        Attached(ev);
      }
      return 0;
    }

    method PutBase(ev: Event, ghost view': State, ghost known: bool)
      requires PartsOwned() && (known <==> ev in Repr)
      requires !known ==> ev.inserted !in Repr && ev.active !in Repr && ev.signal !in Repr
      modifies this`view, this`Repr, ev`ev_pri
      ensures known ==> ev in old(Repr) && Assigned(ev) && ncalls == old(ncalls)
      ensures !known ==> OnlyTouched({}) && SameScalars() && ev.ev_flags == old(ev.ev_flags)
      ensures view == view' && FieldsOf(ev) == old(FieldsOf(ev)).(pri := |activequeues| / 2)
      ensures Repr == if known then old(Repr) else old(Repr) + {ev, ev.inserted, ev.active, ev.signal}
    {
      ev.ev_pri := |activequeues| / 2;
      view := view';
      Repr := if known then Repr else Repr + {ev, ev.inserted, ev.active, ev.signal};
    }

    lemma Unseen(s: State, ev: Event, f: Ev)
      requires ev !in s.evs && Foreign(ev) && ev.ev_flags == {Init} && ev.ev_res == {} && ev.ev_ncalls == 0 && ev.ev_pncalls == 0
      requires f == FieldsOf(ev).(pri := |s.active| / 2)
      ensures AttachTo(s, ev, ev.ev_fd, ev.ev_events) == s.(evs := s.evs[ev := f])
    {
    }

    lemma NotListed(s: State, ev: Event)
      requires Inv(s) && ev !in s.evs
      ensures forall i | 0 <= i < |s.sigs| :: ev !in s.sigs[i]
    {
      hide Core, Slots, Agree, SelfPipe;
      forall i | 0 <= i < |s.sigs| ensures ev !in s.sigs[i] {
        assert ev in s.sigs[i] ==> InterestedIn(s, ev, i, Signal);
      }
    }

    twostate lemma Attached(ev: Event)
      requires old(Valid()) && ev !in old(Repr) && ev !in old(view.evs) && OnlyTouched({}) && ev_signal in old(view.evs)
      requires SameScalars() && Repr == old(Repr) + {ev, ev.inserted, ev.active, ev.signal}
      requires ev.HasLinks() && ev.inserted.on == null && ev.active.on == null && ev.signal.on == null
      requires view == old(view).(evs := old(view.evs)[ev := FieldsOf(ev)]) && ev.ev_flags == {Init}
      requires forall i | 0 <= i < |view.sigs| :: ev !in view.sigs[i]
      ensures Valid()
    {
      hide Owned, QueuesAgree, EventsAgree, LinksAgree, MinHeap.Valid, ListsAlone, OnlyTouched, FieldsOf;
      AttachedOwned(ev);
      AttachedParts(ev);
      QueuesAlone();
      AttachedEvents(ev);
      AttachedLinks(ev);
      AttachedHeap(ev);
    }

    twostate lemma AttachedOwned(ev: Event)
      requires old(Owned()) && OnlyTouched({}) && Repr == old(Repr) + {ev, ev.inserted, ev.active, ev.signal}
      requires view.evs.Keys == old(view.evs.Keys) + {ev}
      ensures Owned()
    {
    }

    twostate lemma AttachedParts(ev: Event)
      requires old(Owned()) && OnlyTouched({})
      ensures ListsAlone() && unchanged(timeheap) && unchanged(timeheap.p) && evbase.View() == old(evbase.View())
      ensures forall e | e in timeheap.elems :: unchanged(e)
      ensures forall e | e in old(view.evs) :: unchanged(e)
    {
    }

    twostate lemma AttachedEvents(ev: Event)
      requires old(Owned()) && Owned() && old(EventsAgree()) && ListsAlone() && ev.HasLinks() && ev !in old(view.evs)
      requires forall e | e in old(view.evs) :: unchanged(e)
      requires view.evs == old(view.evs)[ev := FieldsOf(ev)]
      ensures EventsAgree()
    {
    }

    twostate lemma AttachedLinks(ev: Event)
      requires old(Owned()) && Owned() && old(EventsAgree()) && old(LinksAgree()) && ListsAlone()
      requires ev.inserted.on == null && ev.active.on == null && ev.signal.on == null
      requires ev !in old(view.evs) && ev.ev_flags == {Init}
      requires view.evs == old(view.evs)[ev := FieldsOf(ev)]
      requires view.sigs == old(view.sigs) && forall i | 0 <= i < |view.sigs| :: ev !in view.sigs[i]
      ensures LinksAgree()
    {
    }

    twostate lemma AttachedHeap(ev: Event)
      requires old(timeheap.Valid()) && unchanged(timeheap) && unchanged(timeheap.p)
      requires forall e | e in timeheap.elems :: unchanged(e)
      ensures timeheap.Valid()
    {
    }

    /** event_active */
    method EventActive(ev: Event, res: set<What>, ncalls: int)
      requires Valid() && Core(view) && ev in view.evs && ev_signal in view.evs
      modifies this, Repr
      ensures Valid() && Repr == old(Repr) && view == MakeActive(old(view), ev, res, ncalls)
      ensures old(Active in ev.ev_flags) ==> ev.ev_res == old(ev.ev_res) + res && ev.ev_ncalls == old(ev.ev_ncalls)
      ensures old(Active !in ev.ev_flags) ==> ev.ev_res == res && (0 <= ncalls < 0x1_0000 ==> ev.ev_ncalls == ncalls)
      ensures Active in ev.ev_flags && ev.ev_pri == old(ev.ev_pri)
    {
      hide Owned, EventsAgree, LinksAgree, QueuesAgree, TablesAgree, ScalarsAgree, Valid, Core, QInsert, MakeActive;
      FieldsKnown(ev);
      if Active in ev.ev_flags {
        ShapeOf(view, ev);
        ActiveAgain(view, ev, res, ncalls);
        SetResult(ev, ev.ev_res + res, ev.ev_ncalls, ev.ev_pncalls);
        FieldsKnown(ev);
        return;
      }
      ActiveEffect(view, ev, res, ncalls);
      ActiveIdle(view, ev, res, ncalls);
      SetResult(ev, res, Short(ncalls), 0);
      FieldsKnown(ev);
      InsertList(ev, Active);
      FieldsKnown(ev);
    }

    lemma ActiveIdle(s: State, e: Event, res: set<What>, n: int)
      requires e in s.evs && Active !in s.evs[e].flags
      ensures MakeActive(s, e, res, n) == QInsert(Put(s, e, s.evs[e].(res := res, ncalls := Short(n), pncalls := 0)), e, Active)
    {
    }

    method PutResult(ev: Event, res: set<What>, ncalls: int, pncalls: nat, ghost view': State)
      requires PartsOwned() && ev in Repr
      modifies ev`ev_res, ev`ev_ncalls, ev`ev_pncalls, this`view
      ensures Assigned(ev) && view == view' && this.ncalls == old(this.ncalls)
      ensures FieldsOf(ev) == old(FieldsOf(ev)).(res := res, ncalls := ncalls, pncalls := pncalls)
    {
      ev.ev_res, ev.ev_ncalls, ev.ev_pncalls := res, ncalls, pncalls;
      view := view';
    }

    method SetResult(ev: Event, res: set<What>, ncalls: int, pncalls: nat)
      requires Valid() && Core(view) && ev in view.evs && 0 <= ncalls < 0x1_0000
      requires pncalls == 0 || pncalls == Of(view, ev).pncalls
      modifies ev`ev_res, ev`ev_ncalls, ev`ev_pncalls, this`view
      ensures Valid() && Core(view) && view == Put(old(view), ev, Of(old(view), ev).(res := res, ncalls := ncalls, pncalls := pncalls))
    {
      hide Owned, EventsAgree, LinksAgree, QueuesAgree, TablesAgree, ScalarsAgree, Valid, Core, Assigned, FieldsOf;
      FieldsKnown(ev);
      BeforeTimer(ev);
      ResultCore(view, ev, res, ncalls, pncalls);
      PutResult(ev, res, ncalls, pncalls, Put(view, ev, Of(view, ev).(res := res, ncalls := ncalls, pncalls := pncalls)));
      Refielded(ev);
    }

    lemma ResultCore(s: State, e: Event, res: set<What>, ncalls: int, pncalls: nat)
      requires Core(s) && e in s.evs && 0 <= ncalls < 0x1_0000 && (pncalls == 0 || pncalls == s.evs[e].pncalls)
      ensures Core(Put(s, e, s.evs[e].(res := res, ncalls := ncalls, pncalls := pncalls)))
    {
      hide Core;
      ShapeOf(s, e);
      CoreFrame(s, Put(s, e, s.evs[e].(res := res, ncalls := ncalls, pncalls := pncalls)), e);
    }

    /** event_priority_set */
    method EventPrioritySet(ev: Event, pri: int) returns (res: int)
      requires Valid() && Inv(view) && ev in view.evs
      modifies ev`ev_pri, this`view
      ensures Valid() && (view, res) == PrioritySet(old(view), ev, pri)
      ensures res == (if Active !in ev.ev_flags && 0 <= pri < |activequeues| then 0 else -1)
      ensures ev.ev_pri == if res == 0 then pri else old(ev.ev_pri)
    {
      hide Owned, EventsAgree, LinksAgree, QueuesAgree, TablesAgree, ScalarsAgree, Valid, Core, Assigned, FieldsOf;
      FieldsKnown(ev);
      FlagsKnown(ev);
      if Active in ev.ev_flags {
        return -1;
      }
      if pri < 0 || pri >= |activequeues| {
        return -1;
      }
      BeforeTimer(ev);
      PutPriority(ev, pri, Put(view, ev, Of(view, ev).(pri := pri)));
      Refielded(ev);
      return 0;
    }

    method PutPriority(ev: Event, pri: int, ghost view': State)
      requires PartsOwned() && ev in Repr
      modifies ev`ev_pri, this`view
      ensures Assigned(ev) && view == view' && ncalls == old(ncalls) && FieldsOf(ev) == old(FieldsOf(ev)).(pri := pri)
      ensures ev.ev_pri == pri
    {
      ev.ev_pri := pri;
      view := view';
    }

    /** event_base_loopbreak */
    method EventBaseLoopbreak()
      requires Valid() && Inv(view)
      modifies this`event_break, this`view
      ensures Valid() && view == old(view).(broken := true)
    {
      hide Owned, EventsAgree, LinksAgree, QueuesAgree, TablesAgree, ScalarsAgree, Valid, Core, Wired;
      PipeKnown();
      FieldsKnown(ev_signal);
      event_break := true;
      view := view.(broken := true);
      Rescaled();
    }

    // ----- the counter of event_process_active -----

    /** ncalls = ev->ev_ncalls; ev->ev_pncalls = &ncalls */
    method StartCalls(ev: Event)
      requires Valid() && Core(view) && ev in view.evs
      modifies ev`ev_pncalls, this`ncalls, this`view
      ensures Valid() && view == Put(old(view), ev, Of(old(view), ev).(pncalls := old(view.cell.pass)))
                                 .(cell := old(view.cell).(n := Of(old(view), ev).ncalls))
    {
      hide Owned, EventsAgree, LinksAgree, QueuesAgree, TablesAgree, ScalarsAgree, Valid, Core, Assigned, FieldsOf;
      FieldsKnown(ev);
      EventKnown(ev);
      BeforeTimer(ev);
      PutPointer(ev, Put(view, ev, Of(view, ev).(pncalls := ncalls.pass)).(cell := ncalls.(n := ev.ev_ncalls)));
      Refielded(ev);
    }

    method PutPointer(ev: Event, ghost view': State)
      requires PartsOwned() && ev in Repr
      modifies ev`ev_pncalls, this`ncalls, this`view
      ensures Assigned(ev) && view == view' && ncalls == old(ncalls).(n := old(ev.ev_ncalls))
      ensures FieldsOf(ev) == old(FieldsOf(ev)).(pncalls := old(ncalls.pass))
    {
      ncalls, ev.ev_pncalls := ncalls.(n := ev.ev_ncalls), ncalls.pass;
      view := view';
    }

    lemma EventKnown(ev: Event)
      requires Valid() && ev in view.evs
      ensures ev.ev_ncalls == view.evs[ev].ncalls
    {
      hide LinksAgree, ScalarsAgree, QueuesAgree, TablesAgree;
    }

    /** ncalls--; ev->ev_ncalls = ncalls */
    method CountCall(ev: Event)
      requires Valid() && Core(view) && ev in view.evs
      modifies ev`ev_ncalls, this`ncalls, this`view
      ensures Valid() && ncalls == view.cell
      ensures view == Put(old(view), ev, Of(old(view), ev).(ncalls := old(view.cell.n) - 1))
                      .(cell := old(view.cell).(n := old(view.cell.n) - 1))
    {
      hide Owned, EventsAgree, LinksAgree, QueuesAgree, TablesAgree, ScalarsAgree, Valid, Core, Assigned, FieldsOf;
      FieldsKnown(ev);
      BeforeTimer(ev);
      PutCount(ev, Put(view, ev, Of(view, ev).(ncalls := ncalls.n - 1)).(cell := ncalls.(n := ncalls.n - 1)));
      Refielded(ev);
    }

    method PutCount(ev: Event, ghost view': State)
      requires PartsOwned() && ev in Repr
      modifies ev`ev_ncalls, this`ncalls, this`view
      ensures Assigned(ev) && view == view' && ncalls == old(ncalls).(n := old(ncalls.n) - 1)
      ensures FieldsOf(ev) == old(FieldsOf(ev)).(ncalls := old(ncalls.n) - 1)
    {
      ncalls := ncalls.(n := ncalls.n - 1);
      ev.ev_ncalls := ncalls.n;
      view := view';
    }

    /** event_break = 0, at the head of event_base_loop. */
    method ClearBreak()
      requires Valid() && Inv(view)
      modifies this`event_break, this`view
      ensures Valid() && view == old(view).(broken := false)
    {
      hide Owned, EventsAgree, LinksAgree, QueuesAgree, TablesAgree, ScalarsAgree, Valid, Core, Wired;
      PipeKnown();
      FieldsKnown(ev_signal);
      event_break := false;
      view := view.(broken := false);
      Rescaled();
    }

    /** The counter comes into being with event_process_active, and goes with it. */
    method BeginPass()
      requires Valid() && Inv(view)
      modifies this`ncalls, this`view
      ensures Valid() && view == Begun(old(view))
    {
      hide Owned, EventsAgree, LinksAgree, QueuesAgree, TablesAgree, ScalarsAgree, Valid, Core, Wired;
      PipeKnown();
      FieldsKnown(ev_signal);
      ncalls := Counter(0, ncalls.pass + 1, true, ncalls.wild);
      view := Begun(view);
      Rescaled();
    }

    method EndPass()
      requires Valid() && Inv(view)
      modifies this`ncalls, this`view
      ensures Valid() && view == Ended(old(view))
    {
      hide Owned, EventsAgree, LinksAgree, QueuesAgree, TablesAgree, ScalarsAgree, Valid, Core, Wired;
      PipeKnown();
      FieldsKnown(ev_signal);
      ncalls := ncalls.(running := false);
      view := Ended(view);
      Rescaled();
    }

    // ----- event_set and event_base_set of a known event -----

    /** event_set, then event_base_set, of a new event or one that is on no structure. */
    method SetUp(ev: Event, fd: int, events: set<What>)
      requires Valid() && Inv(view) && (Foreign(ev) || Idle(view, ev))
      modifies this`view, this`Repr, ev`ev_fd, ev`ev_events, ev`ev_res, ev`ev_flags, ev`ev_ncalls, ev`ev_pncalls, ev`ev_pri, ev`min_heap_idx
      ensures Valid() && view == AttachTo(old(view), ev, fd, events)
      ensures ev.ev_fd == fd && ev.ev_events == events && ev.ev_pri == |activequeues| / 2 && ev.ev_flags == {Init}
      ensures ev.ev_res == {} && ev.ev_ncalls == 0 && ev.ev_pncalls == 0
      ensures Repr == if ev in old(view).evs then old(Repr) else old(Repr) + {ev, ev.inserted, ev.active, ev.signal}
    {
      hide Owned, EventsAgree, LinksAgree, QueuesAgree, TablesAgree, ScalarsAgree, Valid, Core, Wired, OnlyTouched, SameScalars,
           FieldsOf;
      PipeKnown();
      FieldsKnown(ev_signal);
      BeforeTables();
      ghost var known := ev in view.evs;
      if known {
        FieldsKnown(ev);
        FlagsKnown(ev);
        IdleFlags(view, ev);
        IdleNowhere(view, ev);
      } else {
        NotListed(view, ev);
      }
      PutFresh(ev, fd, events, AttachTo(view, ev, fd, events), known);
      FieldsAre(ev);
      if known {
        Reset(ev);
      } else {
        Attached(ev);
      }
    }

    lemma FieldsAre(ev: Event)
      ensures var f := FieldsOf(ev);
              && ev.ev_fd == f.fd && ev.ev_events == f.events && ev.ev_pri == f.pri && ev.ev_flags == f.flags
              && ev.ev_res == f.res && ev.ev_ncalls == f.ncalls && ev.ev_pncalls == f.pncalls
    {
    }

    lemma FlagsKnown(ev: Event)
      requires Valid() && ev in view.evs
      ensures ev.ev_flags == view.evs[ev].flags && ev.ev_timeout == view.evs[ev].timeout
    {
      hide LinksAgree, ScalarsAgree, QueuesAgree, TablesAgree;
    }

    method PutFresh(ev: Event, fd: int, events: set<What>, ghost view': State, ghost known: bool)
      requires PartsOwned() && (known <==> ev in Repr)
      requires !known ==> ev.inserted !in Repr && ev.active !in Repr && ev.signal !in Repr
      modifies this`view, this`Repr, ev`ev_fd, ev`ev_events, ev`ev_res, ev`ev_flags, ev`ev_ncalls, ev`ev_pncalls, ev`ev_pri, ev`min_heap_idx
      ensures OnlyTouched(if known then {ev} else {}) && SameScalars() && view == view' && ev.ev_flags == {Init}
      ensures Repr == if known then old(Repr) else old(Repr) + {ev, ev.inserted, ev.active, ev.signal}
      ensures FieldsOf(ev) == Ev(fd, events, |activequeues| / 2, {Init}, old(ev.ev_timeout), {}, 0, 0)
    {
      ev.ev_fd, ev.ev_events, ev.ev_res, ev.ev_flags, ev.ev_ncalls, ev.ev_pncalls := fd, events, {}, {Init}, 0, 0;
      ev.min_heap_idx := -1;
      ev.ev_pri := |activequeues| / 2;
      view := view';
      Repr := if known then Repr else Repr + {ev, ev.inserted, ev.active, ev.signal};
    }

    lemma IdleNowhere(s: State, ev: Event)
      requires Inv(s) && Idle(s, ev)
      ensures ev !in s.heap && forall i | 0 <= i < |s.sigs| :: ev !in s.sigs[i]
    {
      hide Slots, Agree, SelfPipe, Counts, InsertedList, ActiveQueues;
      IdleFlags(s, ev);
      forall i | 0 <= i < |s.sigs| ensures ev !in s.sigs[i] {
        assert ev in s.sigs[i] ==> InterestedIn(s, ev, i, Signal);
      }
    }

    /** What that comes to for the objects. */
    twostate lemma Reset(ev: Event)
      requires old(Valid()) && ev in old(view.evs) && OnlyTouched({ev}) && SameScalars() && Repr == old(Repr)
      requires ev !in old(timeheap.elems) && (forall i | 0 <= i < |old(view.sigs)| :: ev !in old(view.sigs)[i])
      requires old(ev.ev_flags) * {Inserted, Active} == {} && ev.ev_flags == {Init}
      requires view == old(view).(evs := old(view.evs)[ev := FieldsOf(ev)])
      ensures Valid()
    {
      hide Owned, QueuesAgree, EventsAgree, LinksAgree, MinHeap.Valid, ListsAlone, OnlyTouched, FieldsOf;
      ResetParts(ev);
      OwnedAlone();
      QueuesAlone();
      ResetEvents(ev);
      ResetLinks(ev);
      ResetHeap(ev);
    }

    twostate lemma ResetParts(ev: Event)
      requires old(Owned()) && ev in old(view.evs) && OnlyTouched({ev}) && Repr == old(Repr)
      ensures ListsAlone() && unchanged(timeheap) && unchanged(timeheap.p) && evbase.View() == old(evbase.View())
      ensures timeheap.p in Repr && evbase.fds in Repr && forall e | e in timeheap.elems :: e in Repr
      ensures forall e | e in old(view.evs) && e != ev :: unchanged(e)
      ensures forall e | e in timeheap.elems && e != ev :: unchanged(e)
    {
    }

    twostate lemma ResetEvents(ev: Event)
      requires old(Owned()) && Owned() && old(EventsAgree()) && ListsAlone() && ev in old(view.evs)
      requires forall e | e in old(view.evs) && e != ev :: unchanged(e)
      requires view.evs == old(view.evs)[ev := FieldsOf(ev)]
      ensures EventsAgree()
    {
    }

    twostate lemma ResetLinks(ev: Event)
      requires old(Owned()) && Owned() && old(EventsAgree()) && old(LinksAgree()) && ListsAlone() && ev in old(view.evs)
      requires view.sigs == old(view.sigs) && forall i | 0 <= i < |view.sigs| :: ev !in view.sigs[i]
      requires old(ev.ev_flags) * {Inserted, Active} == {} && ev.ev_flags == {Init}
      requires view.evs == old(view.evs)[ev := FieldsOf(ev)]
      ensures LinksAgree()
    {
      assert Inserted !in old(ev.ev_flags) * {Inserted, Active} && Active !in old(ev.ev_flags) * {Inserted, Active};
    }

    twostate lemma ResetHeap(ev: Event)
      requires old(timeheap.Valid()) && unchanged(timeheap) && unchanged(timeheap.p) && ev !in old(timeheap.elems)
      requires forall e | e in timeheap.elems :: e != ev ==> unchanged(e)
      ensures timeheap.Valid()
    {
    }
  }
}
