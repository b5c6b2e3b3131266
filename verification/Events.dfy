/** `struct event`, its three embedded list links, and the intrusive tail queue
    that the event base and the signal table thread through them. */
module Events {
  import opened Seqs
  import opened Timevals

  /** EVLIST_*: the bits of ev_flags. */
  datatype Flag = Timeout | Inserted | Active | Internal | Init

  /** EV_*: the bits of ev_events and ev_res. */
  datatype What = TimedOut | Read | Write | Signal | Persist

  /** The three tqe_next/tqe_prev pairs of `struct event`. */
  datatype Kind = InsertedLink | ActiveLink | SignalLink

  /** A `struct event**`: the address of a queue's tqh_first or of some tqe_next. */
  datatype Slot = Nowhere | HeadOf(queue: Tailq) | NextOf(link: Link)

  /** One embedded { tqe_next, tqe_prev } pair.  A pointer to an event in a list is
      a pointer to the pair it embeds for that list; `home` leads back to the event. */
  class Link {
    const kind: Kind
    var home: Event?
    var next: Link?
    var prev: Slot
    ghost var on: Tailq?   // the queue it is linked into

    constructor (kind: Kind)
      ensures this.kind == kind && on == null
    {
      this.kind := kind;
      home, next, prev, on := null, null, Nowhere, null;
    }
  }

  class Event {
    const inserted: Link
    const active: Link
    const signal: Link
    var min_heap_idx: int          // -1 stands for (unsigned)-1
    var ev_fd: int
    var ev_events: set<What>
    var ev_ncalls: int
    var ev_pncalls: nat            // the number of the pass whose counter it points at; 0 stands for NULL
    var ev_timeout: Timeval
    var ev_pri: int
    var ev_res: set<What>
    var ev_flags: set<Flag>

    /** event_set */
    constructor (fd: int, events: set<What>, pri: int)
      ensures ev_fd == fd && ev_events == events && ev_pri == pri
      ensures ev_flags == {Init} && ev_res == {} && ev_ncalls == 0 && ev_pncalls == 0
      ensures min_heap_idx == -1 && ev_timeout == Timeval(0, 0)
      ensures inserted.on == null && active.on == null && signal.on == null
      ensures HasLinks() && fresh(inserted) && fresh(active) && fresh(signal)
    {
      inserted := new Link(InsertedLink);
      active := new Link(ActiveLink);
      signal := new Link(SignalLink);
      min_heap_idx := -1;
      ev_fd, ev_events, ev_pri := fd, events, pri;
      ev_flags, ev_res, ev_ncalls, ev_pncalls := {Init}, {}, 0, 0;
      ev_timeout := Timeval(0, 0);
      new;
      inserted.home, active.home, signal.home := this, this, this;
    }

    /** The three links are this event's own. */
    ghost predicate HasLinks()
      reads inserted, active, signal
    {
      && inserted.kind == InsertedLink && inserted.home == this
      && active.kind == ActiveLink && active.home == this
      && signal.kind == SignalLink && signal.home == this
    }
  }

  /** `struct event_list`: tqh_first and tqh_last.  `elems` is the list it represents. */
  class Tailq {
    var first: Link?
    var last: Slot
    ghost var elems: seq<Link>

    ghost predicate Valid()
      reads this, elems
    {
      Linked() && forall l | l in elems :: l.on == this
    }

    /** Heads, tails and neighbours are those of `elems`. */
    ghost predicate Linked()
      reads this, elems
    {
      && NoDup(elems)
      && first == (if elems == [] then null else elems[0])
      && last == (if elems == [] then HeadOf(this) else NextOf(elems[|elems| - 1]))
      && (forall i {:trigger elems[i].next} | 0 <= i < |elems| ::
            elems[i].next == if i + 1 < |elems| then elems[i+1] else null)
      && (forall i {:trigger elems[i].prev} | 0 <= i < |elems| ::
            elems[i].prev == if i == 0 then HeadOf(this) else NextOf(elems[i-1]))
    }

    constructor ()
      ensures elems == [] && Valid()
    {
      first, elems := null, [];
      new;
      last := HeadOf(this);
    }

    /** The four assignments of event_queue_insert and evsignal_add. */
    method InsertTail(e: Link)
      requires Valid() && e !in elems
      modifies this, elems`next, e`next, e`prev, e`on
      ensures Valid() && elems == old(elems) + [e]
    {
      e.on := this;
      e.next := null;
      e.prev := last;
      match last {
        case HeadOf(q) => q.first := e;
        case NextOf(x) => x.next := e;
      }
      last := NextOf(e);
      elems := elems + [e];
    }

    /** The unlinking of event_queue_remove and evsignal_del: the list head is only
        named when the last element goes, and then to move tqh_last. */
    method Remove(e: Link)
      requires Valid() && e in elems
      modifies this, elems`next, elems`prev, e`on
      ensures Valid() && elems == Without(old(elems), e) && e.on == null
    {
      hide Without;
      ghost var k :| 0 <= k < |elems| && elems[k] == e;
      ghost var was := elems;
      WithoutMembers(was, e);
      if e.next != null {
        e.next.prev := e.prev;
      } else {
        last := e.prev;
      }
      match e.prev {
        case HeadOf(q) => q.first := e.next;
        case NextOf(x) => x.next := e.next;
      }
      e.on := null;
      elems := Without(elems, e);
      Closed(was, k);
    }

    /** Bridging the gap at `k` leaves a well-linked list of the others. */
    lemma Closed(was: seq<Link>, k: nat)
      requires NoDup(was) && k < |was| && elems == Without(was, was[k])
      requires first == if k > 0 then was[0] else if 1 < |was| then was[1] else null
      requires last == if k < |was| - 1 then NextOf(was[|was|-1])
                       else if k == 0 then HeadOf(this) else NextOf(was[k-1])
      requires forall i {:trigger was[i].next} | 0 <= i < |was| && i != k ::
                 was[i].next == var j := if i == k - 1 then k + 1 else i + 1;
                                if j < |was| then was[j] else null
      requires forall i {:trigger was[i].prev} | 0 <= i < |was| && i != k ::
                 was[i].prev == var j := if i == k + 1 then k - 1 else i - 1;
                                if j < 0 then HeadOf(this) else NextOf(was[j])
      ensures Linked()
    {
      hide Without;
      WithoutAt(was, k);
      WithoutMembers(was, was[k]);
      forall i | 0 <= i < |elems|
        ensures elems[i].next == if i + 1 < |elems| then elems[i+1] else null
        ensures elems[i].prev == if i == 0 then HeadOf(this) else NextOf(elems[i-1])
      {
        assert elems[i] == if i < k then was[i] else was[i+1];
      }
    }

    /** A list nobody has touched is still well linked. */
    twostate lemma StaysValid()
      requires old(Valid()) && unchanged(this) && forall l | l in old(elems) :: unchanged(l)
      ensures Valid()
    {
      assert forall i | 0 <= i < |elems| :: elems[i] in old(elems);
      forall i | 0 <= i < |elems|
        ensures elems[i].next == if i + 1 < |elems| then elems[i+1] else null
        ensures elems[i].prev == if i == 0 then HeadOf(this) else NextOf(elems[i-1])
      {
        assert elems[i].next == old(elems[i].next) && elems[i].prev == old(elems[i].prev);
      }
    }
  }
}
