/** The epoll backend: a growable table of one reader and one writer per descriptor,
    and the interest set the kernel keeps for the same descriptors. */
module Epoll {
  import opened Events

  /** `struct evepoll` */
  datatype FdSlot = FdSlot(evread: Event?, evwrite: Event?)

  datatype Io = In | Out

  /** EPOLL_CTL_* */
  datatype CtlOp = CtlAdd | CtlMod | CtlDel

  /** The registrations of one epoll descriptor. */
  type Kernel = map<int, set<Io>>

  datatype Poll = Poll(table: seq<FdSlot>, kernel: Kernel)

  const NO_SLOT := FdSlot(null, null)

  function At(table: seq<FdSlot>, fd: int): FdSlot {
    if 0 <= fd < |table| then table[fd] else NO_SLOT
  }

  function MaskOf(s: FdSlot): set<Io> {
    (if s.evread != null then {In} else {}) + (if s.evwrite != null then {Out} else {})
  }

  /** epoll_ctl insists that ADD names an unregistered descriptor and MOD and DEL a registered one. */
  predicate Legal(k: Kernel, op: CtlOp, fd: int) {
    op == CtlAdd <==> fd !in k
  }

  /** What an accepted call does to the registrations. */
  function Ctl(k: Kernel, op: CtlOp, fd: int, mask: set<Io>): Kernel {
    if op == CtlDel then k - {fd} else k[fd := mask]
  }

  /** The registrations a table stands for: every descriptor with a reader or a writer. */
  ghost function KernelOf(table: seq<FdSlot>): Kernel {
    map fd | 0 <= fd < |table| && table[fd] != NO_SLOT :: MaskOf(table[fd])
  }

  ghost predicate Agree(p: Poll) {
    p.kernel == KernelOf(p.table)
  }

  /** nfds after the doubling loop of epoll_recalc. */
  function Doubled(nfds: nat, max: int): (r: nat)
    requires nfds > 0
    ensures r > max && r >= nfds
    decreases max - nfds
  {
    if nfds <= max then Doubled(2 * nfds, max) else nfds
  }

  /** `r` is `n`, doubled any number of times. */
  predicate Doubles(n: nat, r: nat) {
    r == n || (r > n && r % 2 == 0 && Doubles(n, r / 2))
  }

  lemma {:induction false} DoublesOnce(n: nat, r: nat)
    requires Doubles(2 * n, r) && n > 0
    ensures Doubles(n, r)
  {
    if r == 2 * n {
      assert Doubles(n, r / 2);
    } else {
      DoublesOnce(n, r / 2);
    }
  }

  /** The table is doubled as often as it takes to go beyond `max`, and no oftener. */
  lemma {:induction false} DoubledExactly(nfds: nat, max: int)
    requires nfds > 0
    ensures var r := Doubled(nfds, max);
            Doubles(nfds, r) && (if max < nfds then r == nfds else max < r <= 2 * max)
    decreases max - nfds
  {
    if nfds <= max {
      DoubledExactly(2 * nfds, max);
      DoublesOnce(nfds, Doubled(2 * nfds, max));
    }
  }

  /** epoll_recalc, when there is room for it. */
  function Grown(table: seq<FdSlot>, fd: int): seq<FdSlot> {
    if |table| == 0 || fd < |table| then table
    else table + seq(Doubled(|table|, fd) - |table|, i => NO_SLOT)
  }

  function IoOf(events: set<What>): set<Io> {
    (if Read in events then {In} else {}) + (if Write in events then {Out} else {})
  }

  /** The slot once `e` has been entered for `events`. */
  function Enter(s: FdSlot, e: Event, events: set<What>): FdSlot {
    FdSlot(if Read in events then e else s.evread, if Write in events then e else s.evwrite)
  }

  function AddOp(s: FdSlot): CtlOp {
    if s == NO_SLOT then CtlAdd else CtlMod
  }

  /** epoll_add of an I/O event: the new state and whether it succeeded.  `granted` is the
      outcome of realloc and `accept` the kernel's answer to a legal request. */
  ghost function PollAdd(p: Poll, e: Event, fd: int, events: set<What>, granted: bool, accept: bool): (Poll, bool) {
    if fd >= |p.table| && !granted then (p, false)
    else
      var table := Grown(p.table, fd);
      var slot := At(table, fd);
      var op := AddOp(slot);
      if !accept || !Legal(p.kernel, op, fd) || fd < 0 || fd >= |table| then (Poll(table, p.kernel), false)
      else (Poll(table[fd := Enter(slot, e, events)], Ctl(p.kernel, op, fd, MaskOf(slot) + IoOf(events))), true)
  }

  /** Whether epoll_del keeps the writer, or the reader, of the slot. */
  predicate KeepsWriter(s: FdSlot, events: set<What>) {
    Read in events && Write !in events && s.evwrite != null
  }

  predicate KeepsReader(s: FdSlot, events: set<What>) {
    Write in events && Read !in events && s.evread != null
  }

  function Leave(s: FdSlot, events: set<What>): FdSlot {
    if KeepsWriter(s, events) then FdSlot(null, s.evwrite)
    else if KeepsReader(s, events) then FdSlot(s.evread, null)
    else NO_SLOT
  }

  function DelOp(s: FdSlot, events: set<What>): CtlOp {
    if KeepsWriter(s, events) || KeepsReader(s, events) then CtlMod else CtlDel
  }

  /** epoll_del of an I/O event: the slots are cleared whatever the kernel says. */
  ghost function PollDel(p: Poll, fd: int, events: set<What>, accept: bool): (Poll, bool) {
    if fd >= |p.table| || fd < 0 then (p, true)
    else
      var slot := p.table[fd];
      var table := p.table[fd := Leave(slot, events)];
      var op := DelOp(slot, events);
      if !accept || !Legal(p.kernel, op, fd) then (Poll(table, p.kernel), false)
      else
        (Poll(table, Ctl(p.kernel, op, fd, if KeepsWriter(slot, events) then {Out} else {In})), true)
  }

  /** Growing keeps every old slot and leaves the new ones empty. */
  lemma GrownAt(table: seq<FdSlot>, max: int, fd: int)
    requires |table| > 0
    ensures At(Grown(table, max), fd) == At(table, fd)
    ensures |Grown(table, max)| > max && |Grown(table, max)| >= |table| && Doubles(|table|, |Grown(table, max)|)
    ensures if max < |table| then |Grown(table, max)| == |table| else |Grown(table, max)| <= 2 * max
    ensures KernelOf(Grown(table, max)) == KernelOf(table)
  {
    var grown := Grown(table, max);
    DoubledExactly(|table|, max);
    forall k | 0 <= k < |grown| ensures grown[k] == At(table, k) {}
  }

  lemma KernelOfUpdate(table: seq<FdSlot>, fd: nat, slot: FdSlot)
    requires fd < |table|
    ensures KernelOf(table[fd := slot])
            == if slot == NO_SLOT then KernelOf(table) - {fd} else KernelOf(table)[fd := MaskOf(slot)]
  {
  }

  /** With table and kernel in agreement every request of epoll_add is legal, an accepted
      one keeps the agreement and enters the event, and a refused one leaves every reader
      and writer where it was. */
  lemma AddAgrees(p: Poll, e: Event, fd: nat, events: set<What>, granted: bool, accept: bool)
    requires Agree(p) && |p.table| > 0 && (Read in events || Write in events)
    ensures Legal(p.kernel, AddOp(At(p.table, fd)), fd)
    ensures var (p', ok) := PollAdd(p, e, fd, events, granted, accept);
            && Agree(p') && |p'.table| >= |p.table|
            && (ok <==> accept && (fd < |p.table| || granted))
            && (forall k | k != fd || !ok :: At(p'.table, k) == At(p.table, k))
            && (!ok ==> p'.kernel == p.kernel && p'.table == if fd < |p.table| || !granted then p.table else Grown(p.table, fd))
            && (ok ==> fd < |p'.table| && At(p'.table, fd) == Enter(At(p.table, fd), e, events))
  {
    var (p', ok) := PollAdd(p, e, fd, events, granted, accept);
    forall k ensures At(Grown(p.table, fd), k) == At(p.table, k) {
      GrownAt(p.table, fd, k);
    }
    if ok {
      GrownAt(p.table, fd, fd);
      KernelOfUpdate(Grown(p.table, fd), fd, Enter(At(p.table, fd), e, events));
      assert MaskOf(Enter(At(p.table, fd), e, events)) == MaskOf(At(p.table, fd)) + IoOf(events);
    }
  }

  /** Every request of epoll_del for a registered descriptor is legal, and the agreement
      survives exactly if the kernel accepts it. */
  lemma DelAgrees(p: Poll, fd: nat, events: set<What>, accept: bool)
    requires Agree(p) && At(p.table, fd) != NO_SLOT && (Read in events || Write in events)
    requires Read in events ==> At(p.table, fd).evread != null
    requires Write in events ==> At(p.table, fd).evwrite != null
    ensures Legal(p.kernel, DelOp(At(p.table, fd), events), fd)
    ensures var (p', ok) := PollDel(p, fd, events, accept);
            && (ok <==> accept) && (Agree(p') <==> accept)
            && |p'.table| == |p.table|
            && (forall k | k != fd :: At(p'.table, k) == At(p.table, k))
            && At(p'.table, fd).evread == (if Read in events then null else At(p.table, fd).evread)
            && At(p'.table, fd).evwrite == (if Write in events then null else At(p.table, fd).evwrite)
  {
    var (p', ok) := PollDel(p, fd, events, accept);
    var slot, left := p.table[fd], p'.table[fd];
    KernelOfUpdate(p.table, fd, left);
    assert fd in p.kernel && p.kernel[fd] == MaskOf(slot);
    assert In in p.kernel[fd] <==> slot.evread != null;
    assert Out in p.kernel[fd] <==> slot.evwrite != null;
    assert left != NO_SLOT ==> MaskOf(left) == if KeepsWriter(slot, events) then {Out} else {In};
    assert !accept && left != NO_SLOT ==> KernelOf(p'.table)[fd] == MaskOf(left);
  }

  /** Adding into a free side and deleting again restores slots and registrations. */
  lemma DelUndoesAdd(p: Poll, e: Event, fd: nat, events: set<What>, granted: bool)
    requires Agree(p) && |p.table| > 0 && (Read in events || Write in events)
    requires Read in events ==> At(p.table, fd).evread == null
    requires Write in events ==> At(p.table, fd).evwrite == null
    requires fd < |p.table| || granted
    ensures PollDel(PollAdd(p, e, fd, events, granted, true).0, fd, events, true)
            == (Poll(Grown(p.table, fd), p.kernel), true)
  {
    AddAgrees(p, e, fd, events, granted, true);
    var (q, _) := PollAdd(p, e, fd, events, granted, true);
    DelAgrees(q, fd, events, true);
    GrownAt(p.table, fd, fd);
    var (r, _) := PollDel(q, fd, events, true);
    assert r.table == Grown(p.table, fd);
  }

  /** `struct epollop`: the table, and beside it the kernel's registrations. */
  class EpollTable {
    var fds: array<FdSlot>
    var kernel: Kernel

    ghost function View(): Poll
      reads this, fds
    {
      Poll(fds[..], kernel)
    }

    /** The table part of epoll_init. */
    constructor (nfiles: nat)
      requires nfiles > 0
      ensures View() == Poll(seq(nfiles, i => NO_SLOT), map[]) && fresh(fds)
    {
      fds := new FdSlot[nfiles](i => NO_SLOT);
      kernel := map[];
    }

    /** epoll_ctl: the kernel refuses illegal requests and, at will, legal ones. */
    method EpollCtl(op: CtlOp, fd: int, mask: set<Io>, accept: bool) returns (res: int)
      modifies this`kernel
      ensures res == if accept && Legal(old(kernel), op, fd) then 0 else -1
      ensures kernel == if res == 0 then Ctl(old(kernel), op, fd, mask) else old(kernel)
    {
      if !accept || !Legal(kernel, op, fd) {
        return -1;
      }
      kernel := Ctl(kernel, op, fd, mask);
      return 0;
    }

    /** epoll_recalc: doubles the table until `max` fits; `granted` is realloc's outcome. */
    method Recalc(max: int, granted: bool) returns (res: int)
      requires fds.Length > 0
      modifies this`fds
      ensures res == if max < old(fds.Length) || granted then 0 else -1
      ensures fds[..] == if res == 0 then Grown(old(fds[..]), max) else old(fds[..])
      ensures fds == old(fds) || fresh(fds)
    {
      if max >= fds.Length {
        var nfds := fds.Length;
        while nfds <= max
          invariant nfds >= fds.Length && Doubled(nfds, max) == Doubled(fds.Length, max)
          decreases max - nfds
        {
          nfds := 2 * nfds;
        }
        if !granted {
          return -1;
        }
        var old_fds := fds;
        fds := new FdSlot[nfds](i requires 0 <= i reads old_fds => if i < old_fds.Length then old_fds[i] else NO_SLOT);
        assert fds[..] == Grown(old_fds[..], max);
      }
      return 0;
    }

    /** epoll_add of a read or write event. */
    method Add(ev: Event, granted: bool, accept: bool) returns (res: int)
      requires fds.Length > 0 && ev.ev_fd >= 0
      modifies this, fds
      ensures (View(), res == 0) == PollAdd(old(View()), ev, ev.ev_fd, ev.ev_events, granted, accept)
      ensures res == 0 || res == -1
      ensures fds == old(fds) || fresh(fds)
    {
      var fd := ev.ev_fd;
      if fd >= fds.Length {
        var r := Recalc(fd, granted);
        if r == -1 {
          return -1;
        }
      }
      GrownAt(old(fds[..]), fd, fd);
      var op := CtlAdd;
      var events: set<Io> := {};
      if fds[fd].evread != null {
        events, op := events + {In}, CtlMod;
      }
      if fds[fd].evwrite != null {
        events, op := events + {Out}, CtlMod;
      }
      assert op == AddOp(fds[fd]) && events == MaskOf(fds[fd]);
      if Read in ev.ev_events {
        events := events + {In};
      }
      if Write in ev.ev_events {
        events := events + {Out};
      }
      assert events == MaskOf(fds[fd]) + IoOf(ev.ev_events);
      var r := EpollCtl(op, fd, events, accept);
      if r == -1 {
        return -1;
      }
      ghost var slot := fds[fd];
      if Read in ev.ev_events {
        fds[fd] := fds[fd].(evread := ev);
      }
      if Write in ev.ev_events {
        fds[fd] := fds[fd].(evwrite := ev);
      }
      assert fds[..] == Grown(old(fds[..]), fd)[fd := Enter(slot, ev, ev.ev_events)];
      return 0;
    }

    /** epoll_del of a read or write event. */
    method Del(ev: Event, accept: bool) returns (res: int)
      requires ev.ev_fd >= 0 && (Read in ev.ev_events || Write in ev.ev_events)
      modifies this`kernel, fds
      ensures (View(), res == 0) == PollDel(old(View()), ev.ev_fd, ev.ev_events, accept)
      ensures res == 0 || res == -1
    {
      var fd := ev.ev_fd;
      if fd >= fds.Length {
        return 0;
      }
      var slot := fds[fd];
      var op := CtlDel;
      var events := IoOf(ev.ev_events);
      var needwritedelete, needreaddelete := true, true;
      if events != {In, Out} {
        if In in events && slot.evwrite != null {
          needwritedelete, events, op := false, {Out}, CtlMod;
        } else if Out in events && slot.evread != null {
          needreaddelete, events, op := false, {In}, CtlMod;
        }
      }
      assert op == DelOp(slot, ev.ev_events);
      if needreaddelete {
        fds[fd] := fds[fd].(evread := null);
      }
      if needwritedelete {
        fds[fd] := fds[fd].(evwrite := null);
      }
      assert fds[..] == old(fds[..])[fd := Leave(slot, ev.ev_events)];
      assert op == CtlMod ==> events == if KeepsWriter(slot, ev.ev_events) then {Out} else {In};
      res := EpollCtl(op, fd, events, accept);
    }
  }
}
