/** The loops of the backend over a real base: evsignal_process and the part of
    epoll_dispatch behind epoll_wait. */
module DispatchLoops {
  import opened Seqs
  import opened Timevals
  import opened Events
  import opened MinHeaps
  import opened Epoll
  import opened BaseState
  import opened BaseInv
  import opened BaseRuns
  import opened BaseEffects
  import opened Dispatch
  import opened EventBases
  import opened BaseLoops

  /** Walking a list: the link at position `k` and its successor. */
  lemma Position(q: Tailq, es: seq<Event>, kind: Kind, k: nat)
    requires Represents(q, es, kind) && k < |es| && es[k].HasLinks()
    ensures LinkOf(es[k], kind).home == es[k]
    ensures LinkOf(es[k], kind).next == if k + 1 < |es| then LinkOf(es[k+1], kind) else null
    ensures q.first == LinkOf(es[0], kind)
  {
    assert q.elems[k] == LinkOf(es[k], kind);
    assert q.elems[0] == LinkOf(es[0], kind);
  }

  lemma EmptyFirst(q: Tailq, es: seq<Event>, kind: Kind)
    requires Represents(q, es, kind)
    ensures q.first == null <==> es == []
  {
  }

  /** The link to go on with when `todo` is what is left of a list. */
  function FirstLink(todo: seq<Event>, kind: Kind): Link? {
    if todo == [] then null else LinkOf(todo[0], kind)
  }

  lemma SignalPosition(base: EventBase, sig: nat, done: seq<Event>, todo: seq<Event>)
    requires base.Valid() && Inv(base.view) && sig < NSIG == |base.view.sigs| && base.view.sigs[sig] == done + todo
    ensures |base.evsigevents| == NSIG && (done == [] ==> base.evsigevents[sig].first == FirstLink(todo, SignalLink))
    ensures todo != [] ==> todo[0] in base.view.evs && todo[0].signal.home == todo[0]
                           && todo[0].signal.next == FirstLink(todo[1..], SignalLink)
  {
    hide Core, Slots, Agree, SelfPipe, EventBase.TablesAgree, EventBase.LinksAgree, Tailq.Valid, Represents;
    assert Represents(base.evsigevents[sig], base.view.sigs[sig], SignalLink);
    EmptyFirst(base.evsigevents[sig], base.view.sigs[sig], SignalLink);
    if todo != [] {
      assert base.view.sigs[sig][|done|] == todo[0];
      assert InterestedIn(base.view, todo[0], sig, Signal);
      Position(base.evsigevents[sig], base.view.sigs[sig], SignalLink, |done|);
    }
  }

  method RaiseEvent(base: EventBase, ev: Event, n: nat)
    requires base.Valid() && Inv(base.view) && base in base.Repr
    requires ev in base.view.evs && ev != base.view.sigEvent && On(base.view, ev, Inserted) && Signal in Of(base.view, ev).events
    modifies base, base.Repr
    ensures base.Valid() && base.Repr == old(base.Repr) && base.view == Raise(old(base.view), ev, n)
  {
    hide EventBase.Valid, Inv, Core, Del, MakeActive;
    PipeFacts(base.view);
    DelInv(base.view, ev);
    DelBackend(base.view, ev);
    DelEvs(base.view, ev);
    PipeFacts(Del(base.view, ev).0);
    base.FieldsKnown(ev);
    if Persist !in ev.ev_events {
      var r := base.EventDel(ev);
    }
    base.FieldsKnown(ev);
    base.EventActive(ev, {Signal}, n);
  }

  /** The inner loop of evsignal_process.  The link to go on with is read before event_del
      takes the event off the list. */
  method RaiseList(base: EventBase, sig: nat, n: nat)
    requires base.Valid() && Inv(base.view) && base in base.Repr && sig < NSIG && n != 0
    modifies base, base.Repr
    ensures base.Valid() && base.Repr == old(base.Repr) && base.view == RaiseOne(old(base.view), sig, n)
  {
    hide EventBase.Valid, Inv, Raise, Listening, Core, NoDup;
    WholeListening(base.view, sig);
    ghost var s := base.view;
    ghost var done: seq<Event>, todo: seq<Event> := [], base.view.sigs[sig];
    SignalPosition(base, sig, done, todo);
    var link := base.evsigevents[sig].first;
    while link != null
      invariant base.Valid() && Inv(base.view) && base.Repr == old(base.Repr) && base in base.Repr
      invariant |base.view.sigs| == NSIG && base.view.sigs[sig] == done + todo && NoDup(base.view.sigs[sig])
      invariant Listening(base.view, todo, sig) && link == FirstLink(todo, SignalLink)
      invariant RaiseAll(s, s.sigs[sig], n) == RaiseAll(base.view, todo, n)
      decreases |todo|
    {
      SignalPosition(base, sig, done, todo);
      ListeningHead(base.view, todo, sig);
      var next := link.next;
      var ev := link.home;
      assert todo == [ev] + todo[1..];
      RaiseStep(base.view, done, ev, todo[1..], sig, n);
      HeadListening(base.view, todo, sig);
      done := if Persist in base.view.evs[ev].events then done + [ev] else done;
      RaiseEvent(base, ev, n);
      todo := todo[1..];
      link := next;
    }
  }

  lemma HeadListening(s: State, list: seq<Event>, sig: nat)
    requires Listening(s, list, sig) && list != []
    ensures var e := list[0]; e in s.evs && e != s.sigEvent && On(s, e, Inserted) && Signal in Of(s, e).events
  {
    assert list[0] in list;
  }

  /** evsignal_process, as long as no handler runs meanwhile: all counters are drained, and
      what they counted is handed to the listening events. */
  method ProcessSignals(base: EventBase, evsigcaught: array<nat>)
    requires base.Valid() && Inv(base.view) && base in base.Repr && evsigcaught.Length == NSIG && evsigcaught !in base.Repr
    modifies base, base.Repr, evsigcaught
    ensures base.Valid() && base.Repr == old(base.Repr) && Inv(base.view)
    ensures base.view == RaiseFrom(old(base.view), old(evsigcaught[..]), 1)
    ensures forall i | 0 <= i < NSIG :: evsigcaught[i] == if i == 0 then old(evsigcaught[0]) else 0
  {
    hide EventBase.Valid, Inv, RaiseOne, AllRaised;
    ghost var s, caught := base.view, evsigcaught[..];
    var i := 1;
    while i < NSIG
      invariant 1 <= i <= NSIG && base.Valid() && Inv(base.view) && base.Repr == old(base.Repr) && base in base.Repr
      invariant RaiseFrom(s, caught, 1) == RaiseFrom(base.view, caught, i)
      invariant forall j | 0 <= j < NSIG :: evsigcaught[j] == if 1 <= j < i then 0 else caught[j]
    {
      var ncalls := evsigcaught[i];
      RaiseOneEffect(base.view, i, ncalls);
      RaiseNone(base.view, i);
      if ncalls != 0 {
        evsigcaught[i] := evsigcaught[i] - ncalls;
        RaiseList(base, i, ncalls);
      }
      i := i + 1;
    }
  }

  lemma RaiseNone(s: State, sig: nat)
    ensures RaiseOne(s, sig, 0) == s
  {
  }

  // ----- ready descriptors -----

  lemma TableKnown(base: EventBase)
    requires base.Valid() && Inv(base.view)
    ensures base.evbase.fds[..] == base.view.poll.table && base.ev_signal in base.view.evs
    ensures Core(base.view) && base.evbase.fds in base.Repr
  {
    hide Core, Slots, Signals, Agree;
    base.BeforeTables();
    base.PipeKnown();
  }

  /** The loop of epoll_dispatch over the first `res` of the kernel's answers. */
  method ActivateReady(base: EventBase, events: array<EpollEvent>, res: nat)
    requires base.Valid() && Inv(base.view) && base in base.Repr && res <= events.Length && events !in base.Repr
    modifies base, base.Repr
    ensures base.Valid() && base.Repr == old(base.Repr) && Inv(base.view)
    ensures base.view == ReportAll(old(base.view), events[..res])
  {
    hide EventBase.Valid, Inv, Report;
    ghost var s, rs := base.view, events[..res];
    var i := 0;
    while i < res
      invariant i <= res && base.Valid() && Inv(base.view) && base.Repr == old(base.Repr) && base in base.Repr
      invariant events[..] == old(events[..]) && ReportAll(s, rs) == ReportAll(base.view, rs[i..])
    {
      assert rs[i..][0] == rs[i] == events[i] && rs[i..][1..] == rs[i+1..];
      ReportEffect(base.view, events[i]);
      ActivateOne(base, events[i]);
      i := i + 1;
    }
    assert rs[i..] == [];
  }

  /** One turn: what to activate is read from the table before anything is activated. */
  method ActivateOne(base: EventBase, r: EpollEvent)
    requires base.Valid() && Inv(base.view) && base in base.Repr
    modifies base, base.Repr
    ensures base.Valid() && base.Repr == old(base.Repr) && base.view == Report(old(base.view), r)
  {
    hide EventBase.Valid, Inv, MakeActive, Core;
    TableKnown(base);
    SlotInterested(base.view, r);
    var evread: Event?, evwrite: Event? := null, null;
    var fd := r.fd;
    if fd < 0 || fd >= base.evbase.fds.Length {
      return;
    }
    var evep := base.evbase.fds[fd];
    assert evep == At(base.view.poll.table, fd);
    if EpollHup in r.events || EpollErr in r.events {
      evread, evwrite := evep.evread, evep.evwrite;
    } else {
      if EpollIn in r.events {
        evread := evep.evread;
      }
      if EpollOut in r.events {
        evwrite := evep.evwrite;
      }
    }
    if evread == null && evwrite == null {
      return;
    }
    ActivatedIf(base.view, evread, Read, fd);
    if evread != null {
      base.FieldsKnown(evread);
      base.EventActive(evread, {Read}, 1);
    }
    TableKnown(base);
    if evwrite != null {
      base.FieldsKnown(evwrite);
      base.EventActive(evwrite, {Write}, 1);
    }
  }
}
