/** What epoll_dispatch makes of the kernel's answer: evsignal_process hands caught signals
    to their events, and the loop after it activates the events of ready descriptors. */
module Dispatch {
  import opened Seqs
  import opened Timevals
  import opened Events
  import opened Epoll
  import opened BaseState
  import opened BaseInv
  import opened BaseEffects

  /** event_active as seen from the event. */
  function Activated(ev: Ev, res: set<What>, ncalls: int): Ev {
    if Active in ev.flags then ev.(res := ev.res + res)
    else ev.(flags := ev.flags + {Active}, res := res, ncalls := Short(ncalls), pncalls := 0)
  }

  // ----- evsignal_process -----

  /** One event on the list of a signal that was caught `n` times. */
  ghost function Raise(s: State, e: Event, n: nat): State {
    MakeActive(if Persist in Of(s, e).events then s else Del(s, e).0, e, {Signal}, n)
  }

  ghost function RaiseAll(s: State, list: seq<Event>, n: nat): State
    decreases |list|
  {
    if list == [] then s else RaiseAll(Raise(s, list[0], n), list[1..], n)
  }

  ghost function RaiseOne(s: State, sig: nat, n: nat): State {
    if n == 0 then s else RaiseAll(s, ListAt(s.sigs, sig), n)
  }

  /** Signals `from`, `from` + 1, ... in turn. */
  ghost function RaiseFrom(s: State, caught: seq<nat>, from: nat): State
    decreases |caught| - from
  {
    if from >= |caught| then s else RaiseFrom(RaiseOne(s, from, caught[from]), caught, from + 1)
  }

  /** What a caught signal makes of one of its events: it is active for the signal, and
      keeps its registration only if it is persistent.  An event that is already active
      keeps its old count of calls unless the event_del before gave it up. */
  function Raised(ev: Ev, n: nat): Ev {
    Activated(if Persist in ev.events then ev else ev.(flags := ev.flags - QUEUES), {Signal}, n)
  }

  lemma RaiseEffect(s: State, e: Event, n: nat)
    requires Inv(s) && e in s.evs && e != s.sigEvent && Inserted in s.evs[e].flags && Signal in s.evs[e].events
    ensures Inv(Raise(s, e, n)) && Raise(s, e, n).evs == s.evs[e := Raised(s.evs[e], n)]
    ensures Raise(s, e, n).sigEvent == s.sigEvent && Raise(s, e, n).poll == s.poll
    ensures var fd := s.evs[e].fd;
            Raise(s, e, n).sigs ==
              if Persist in s.evs[e].events then s.sigs else SetList(s.sigs, fd, Without(ListAt(s.sigs, fd), e))
  {
    hide Inv, Del, MakeActive, Raised;
    if Persist in s.evs[e].events {
      RaiseNow(s, s, e, n);
    } else {
      DelInv(s, e);
      DelBackend(s, e);
      DelEvs(s, e);
      RaiseNow(s, Del(s, e).0, e, n);
    }
  }

  /** event_active, after event_del has taken the event off everything if it is not persistent. */
  lemma RaiseNow(s: State, s1: State, e: Event, n: nat)
    requires Inv(s1) && e in s.evs && e in s1.evs && e != s1.sigEvent
    requires s1.evs == if Persist in s.evs[e].events then s.evs else s.evs[e := s.evs[e].(flags := s.evs[e].flags - QUEUES)]
    ensures var s' := MakeActive(s1, e, {Signal}, n);
            Inv(s') && s'.evs == s.evs[e := Raised(s.evs[e], n)] && SameBackend(s1, s')
  {
    hide Inv;
    MakeActiveInv(s1, e, {Signal}, n);
  }

  lemma DelEvs(s: State, e: Event)
    requires Inv(s) && e in s.evs
    ensures Del(s, e).0.evs == s.evs[e := s.evs[e].(flags := s.evs[e].flags - QUEUES)]
  {
    hide Core, Wired, Del;
    DelCore(s, e);
  }

  /** The members of `list` that stay on it. */
  function Persisting(s: State, list: seq<Event>): seq<Event> {
    if list == [] then []
    else if Persist in Of(s, list[0]).events then [list[0]] + Persisting(s, list[1..])
    else Persisting(s, list[1..])
  }

  lemma {:induction false} PersistingSame(s: State, s': State, list: seq<Event>)
    requires forall x | x in list :: Of(s', x).events == Of(s, x).events
    ensures Persisting(s', list) == Persisting(s, list)
  {
    if list != [] {
      PersistingSame(s, s', list[1..]);
    }
  }

  /** Part of the list of signal `sig`. */
  ghost predicate Listening(s: State, list: seq<Event>, sig: nat) {
    && NoDup(list)
    && forall x | x in list :: x in s.evs && x != s.sigEvent && On(s, x, Inserted) && Signal in s.evs[x].events && s.evs[x].fd == sig
  }

  /** Every event of `list` raised once, and no other event changed. */
  ghost predicate AllRaised(s: State, list: seq<Event>, n: nat, s': State) {
    && s'.evs.Keys == s.evs.Keys && s'.sigEvent == s.sigEvent && s'.poll == s.poll
    && forall x | x in s.evs :: s'.evs[x] == if x in list then Raised(s.evs[x], n) else s.evs[x]
  }

  /** The loop over one list: although it shrinks as the loop goes on, each event that was
      on it is raised exactly once, and the persistent ones are left on it, in order. */
  lemma {:induction false} RaiseAllEffect(s: State, done: seq<Event>, list: seq<Event>, sig: nat, n: nat)
    requires Inv(s) && sig < NSIG == |s.sigs| && Listening(s, list, sig) && s.sigs[sig] == done + list && NoDup(done + list)
    ensures Inv(RaiseAll(s, list, n)) && AllRaised(s, list, n, RaiseAll(s, list, n))
    ensures RaiseAll(s, list, n).sigs == s.sigs[sig := done + Persisting(s, list)]
    decreases |list|
  {
    hide Inv, Raise, Raised, Without, NoDup, Listening;
    if list == [] {
      assert done + list == done;
      assert s.sigs[sig := s.sigs[sig]] == s.sigs;
    } else {
      var e, rest, s1 := list[0], list[1..], Raise(s, list[0], n);
      assert [e] + rest == list;
      ListeningHead(s, list, sig);
      var done' := if Persist in s.evs[e].events then done + [e] else done;
      RaiseStep(s, done, e, rest, sig, n);
      RaiseAllEffect(s1, done', rest, sig, n);
      PersistingSame(s, s1, rest);
      assert done' + Persisting(s, rest) == done + Persisting(s, list);
      assert s1.sigs[sig := done' + Persisting(s, rest)] == s.sigs[sig := done + Persisting(s, list)];
      AllRaisedNext(s, s1, e, rest, n, RaiseAll(s, list, n));
    }
  }

  /** One turn of that loop. */
  lemma RaiseStep(s: State, done: seq<Event>, e: Event, rest: seq<Event>, sig: nat, n: nat)
    requires Inv(s) && sig < NSIG == |s.sigs| && Listening(s, [e] + rest, sig)
    requires s.sigs[sig] == done + ([e] + rest) && NoDup(s.sigs[sig])
    ensures var s1 := Raise(s, e, n);
            var done' := if Persist in s.evs[e].events then done + [e] else done;
            && e in s.evs && Inv(s1) && s1.evs == s.evs[e := Raised(s.evs[e], n)] && s1.sigEvent == s.sigEvent && s1.poll == s.poll
            && s1.sigs == s.sigs[sig := done' + rest] && NoDup(done' + rest) && Listening(s1, rest, sig) && e !in rest
            && (forall x | x in rest :: x in s.evs && Of(s1, x).events == Of(s, x).events)
            && Raised(s.evs[e], n).events == s.evs[e].events
  {
    hide Inv, Raise, Raised, Without;
    assert ([e] + rest)[0] == e;
    RaiseEffect(s, e, n);
    RaisedStatic(s.evs[e], n);
    assert done + ([e] + rest) == done + [e] + rest;
    WithoutMiddle(done, e, rest);
    ListeningRest(s, Raise(s, e, n), e, rest, sig);
    assert forall x | x in rest :: x in [e] + rest;
    if Persist in s.evs[e].events {
      assert s.sigs[sig := s.sigs[sig]] == s.sigs;
    }
  }

  lemma ListeningHead(s: State, list: seq<Event>, sig: nat)
    requires Listening(s, list, sig) && list != []
    ensures list[0] in s.evs
  {
    assert list[0] in list;
  }

  lemma AllRaisedNext(s: State, s1: State, e: Event, rest: seq<Event>, n: nat, s': State)
    requires e in s.evs && s1.evs == s.evs[e := Raised(s.evs[e], n)] && s1.sigEvent == s.sigEvent && s1.poll == s.poll
    requires e !in rest && AllRaised(s1, rest, n, s')
    ensures AllRaised(s, [e] + rest, n, s')
  {
    hide Raised;
  }

  lemma ListeningRest(s: State, s1: State, e: Event, rest: seq<Event>, sig: nat)
    requires Listening(s, [e] + rest, sig) && s1.sigEvent == s.sigEvent && s1.evs.Keys == s.evs.Keys
    requires forall x | x in s.evs && x != e :: s1.evs[x] == s.evs[x]
    ensures Listening(s1, rest, sig) && e !in rest
  {
    assert forall x | x in rest :: x in [e] + rest;
    assert forall i | 0 <= i < |rest| :: rest[i] == ([e] + rest)[i + 1];
    assert ([e] + rest)[0] == e;
  }

  lemma RaisedStatic(ev: Ev, n: nat)
    ensures Raised(ev, n).events == ev.events && Raised(ev, n).fd == ev.fd
  {
  }

  lemma {:induction false} WithoutMiddle(a: seq<Event>, e: Event, b: seq<Event>)
    requires NoDup(a + [e] + b)
    ensures Without(a + [e] + b, e) == a + b && NoDup(a + b)
  {
    var w := a + [e] + b;
    assert w[|a|] == e;
    WithoutAt(w, |a|);
    var r := Without(w, e);
    assert |r| == |a + b|;
    forall i | 0 <= i < |r| ensures r[i] == (a + b)[i] {
      if i >= |a| { assert w[i+1] == b[i - |a|]; }
    }
    WithoutMembers(w, e);
    assert r == a + b;
  }

  lemma WholeListening(s: State, sig: nat)
    requires Inv(s) && sig < NSIG
    ensures |s.sigs| == NSIG && Listening(s, s.sigs[sig], sig) && NoDup(s.sigs[sig])
  {
    hide Core, Slots, Agree;
    forall x | x in s.sigs[sig]
      ensures x in s.evs && x != s.sigEvent && On(s, x, Inserted) && Signal in s.evs[x].events && s.evs[x].fd == sig
    {
      assert InterestedIn(s, x, sig, Signal);
    }
  }

  lemma RaiseOneEffect(s: State, sig: nat, n: nat)
    requires Inv(s) && sig < NSIG
    ensures |s.sigs| == NSIG && Inv(RaiseOne(s, sig, n))
    ensures AllRaised(s, if n == 0 then [] else s.sigs[sig], n, RaiseOne(s, sig, n))
    ensures RaiseOne(s, sig, n).sigs == s.sigs[sig := if n == 0 then s.sigs[sig] else Persisting(s, s.sigs[sig])]
  {
    hide Core, Wired, RaiseAll, Raised, Listening;
    WholeListening(s, sig);
    if n != 0 {
      assert [] + s.sigs[sig] == s.sigs[sig];
      RaiseAllEffect(s, [], s.sigs[sig], sig, n);
      assert [] + Persisting(s, s.sigs[sig]) == Persisting(s, s.sigs[sig]);
    } else {
      assert s.sigs[sig := s.sigs[sig]] == s.sigs;
    }
  }

  /** Whether `e` listens to one of the signals from `from` on that were caught. */
  ghost predicate Caught(s: State, e: Event, caught: seq<nat>, from: nat) {
    && e in s.evs && On(s, e, Inserted) && Signal in s.evs[e].events
    && from <= s.evs[e].fd < |caught| && caught[s.evs[e].fd] != 0
  }

  lemma ListedIffInterested(s: State, sig: nat)
    requires Inv(s) && sig < NSIG
    ensures |s.sigs| == NSIG
    ensures forall e | e in s.evs :: e in s.sigs[sig] <==> (On(s, e, Inserted) && Signal in s.evs[e].events && s.evs[e].fd == sig)
  {
    hide Core, Slots, Agree, SelfPipe;
    forall e | e in s.sigs[sig] ensures InterestedIn(s, e, sig, Signal) {}
    forall e | e in s.evs && On(s, e, Inserted) && Signal in s.evs[e].events && s.evs[e].fd == sig ensures e in s.sigs[sig] {
      assert e in ListAt(s.sigs, s.evs[e].fd);
    }
  }

  /** evsignal_process: every event inserted for a signal that was caught becomes active for
      it, once, with the number of times it was caught; no other event is touched. */
  lemma {:induction false} RaiseFromEffect(s: State, caught: seq<nat>, from: nat)
    requires Inv(s) && |caught| == NSIG && from <= NSIG
    ensures var s' := RaiseFrom(s, caught, from);
            && Inv(s') && s'.evs.Keys == s.evs.Keys && s'.poll == s.poll
            && (forall e | e in s.evs ::
                  s'.evs[e] == if Caught(s, e, caught, from) then Raised(s.evs[e], caught[s.evs[e].fd]) else s.evs[e])
    decreases NSIG - from
  {
    hide Core, Wired, RaiseOne, Raised;
    if from < NSIG {
      var n, s1 := caught[from], RaiseOne(s, from, caught[from]);
      RaiseOneEffect(s, from, n);
      ListedIffInterested(s, from);
      RaiseFromEffect(s1, caught, from + 1);
      forall e | e in s.evs
        ensures RaiseFrom(s, caught, from).evs[e] ==
                if Caught(s, e, caught, from) then Raised(s.evs[e], caught[s.evs[e].fd]) else s.evs[e]
      {
        RaisedStatic(s.evs[e], n);
      }
    }
  }

  // ----- ready descriptors -----

  /** The bits of epoll_event.events. */
  datatype Bit = EpollIn | EpollOut | EpollErr | EpollHup

  datatype EpollEvent = EpollEvent(fd: int, events: set<Bit>)

  function ReportedReader(table: seq<FdSlot>, r: EpollEvent): Event? {
    if EpollHup in r.events || EpollErr in r.events || EpollIn in r.events then At(table, r.fd).evread else null
  }

  function ReportedWriter(table: seq<FdSlot>, r: EpollEvent): Event? {
    if EpollHup in r.events || EpollErr in r.events || EpollOut in r.events then At(table, r.fd).evwrite else null
  }

  function MakeActiveIf(s: State, e: Event?, what: What): State {
    if e == null then s else MakeActive(s, e, {what}, 1)
  }

  function Report(s: State, r: EpollEvent): State {
    MakeActiveIf(MakeActiveIf(s, ReportedReader(s.poll.table, r), Read), ReportedWriter(s.poll.table, r), Write)
  }

  function ReportAll(s: State, rs: seq<EpollEvent>): State
    decreases |rs|
  {
    if rs == [] then s else ReportAll(Report(s, rs[0]), rs[1..])
  }

  /** The reasons an event is given to run: what it waits for and is reported. */
  ghost function Reasons(s: State, e: Event, rs: seq<EpollEvent>): set<What>
    decreases |rs|
  {
    if rs == [] then {}
    else (if ReportedReader(s.poll.table, rs[0]) == e then {Read} else {})
         + (if ReportedWriter(s.poll.table, rs[0]) == e then {Write} else {})
         + Reasons(s, e, rs[1..])
  }

  function Fired(ev: Ev, reasons: set<What>): Ev {
    if reasons == {} then ev else Activated(ev, reasons, 1)
  }

  lemma FiredTwice(ev: Ev, a: set<What>, b: set<What>)
    ensures Fired(Fired(ev, a), b) == Fired(ev, a + b)
  {
    if a == {} { assert a + b == b; } else if b == {} { assert a + b == a; }
    assert (ev.res + a) + b == ev.res + (a + b);
  }

  lemma ActivatedIf(s: State, e: Event?, what: What, fd: int)
    requires Inv(s) && (what == Read || what == Write) && (e != null ==> InterestedIn(s, e, fd, what))
    ensures var s' := MakeActiveIf(s, e, what);
            && Inv(s') && s'.poll == s.poll && s'.evs.Keys == s.evs.Keys
            && (forall x | x in s.evs :: s'.evs[x] == Fired(s.evs[x], if x == e then {what} else {}))
  {
    hide Core, Slots, Signals, Agree;
    if e != null {
      MakeActiveInv(s, e, {what}, 1);
    }
  }

  /** A slot holds only events that wait on its descriptor. */
  lemma SlotInterested(s: State, r: EpollEvent)
    requires Inv(s)
    ensures var e := ReportedReader(s.poll.table, r); e != null ==> InterestedIn(s, e, r.fd, Read)
    ensures var e := ReportedWriter(s.poll.table, r); e != null ==> InterestedIn(s, e, r.fd, Write)
  {
    hide Core, Signals, Agree, SelfPipe;
  }

  lemma ReportEffect(s: State, r: EpollEvent)
    requires Inv(s)
    ensures var s' := Report(s, r);
            && Inv(s') && s'.poll == s.poll && s'.evs.Keys == s.evs.Keys
            && (forall x | x in s.evs :: s'.evs[x] == Fired(s.evs[x], Reasons(s, x, [r])))
  {
    hide Inv, MakeActiveIf, Fired;
    var rd, wr := ReportedReader(s.poll.table, r), ReportedWriter(s.poll.table, r);
    SlotInterested(s, r);
    ActivatedIf(s, rd, Read, r.fd);
    var s1 := MakeActiveIf(s, rd, Read);
    SlotInterested(s1, r);
    ActivatedIf(s1, wr, Write, r.fd);
    forall x | x in s.evs ensures Report(s, r).evs[x] == Fired(s.evs[x], Reasons(s, x, [r])) {
      OneReason(s, x, r);
      FiredTwice(s.evs[x], if x == rd then {Read} else {}, if x == wr then {Write} else {});
    }
  }

  lemma OneReason(s: State, e: Event, r: EpollEvent)
    ensures Reasons(s, e, [r]) == (if e == ReportedReader(s.poll.table, r) then {Read} else {})
                                  + (if e == ReportedWriter(s.poll.table, r) then {Write} else {})
  {
    assert [r][1..] == [];
    assert Reasons(s, e, []) == {};
  }

  lemma {:induction false} ReasonsSame(s: State, s': State, e: Event, rs: seq<EpollEvent>)
    requires s'.poll == s.poll
    ensures Reasons(s', e, rs) == Reasons(s, e, rs)
  {
    if rs != [] {
      ReasonsSame(s, s', e, rs[1..]);
    }
  }

  /** The loop over the kernel's answer: each event becomes active for exactly the reasons
      that were reported for it, however often and in whatever order, with one call. */
  lemma {:induction false} ReportAllEffect(s: State, rs: seq<EpollEvent>)
    requires Inv(s)
    ensures var s' := ReportAll(s, rs);
            && Inv(s') && s'.poll == s.poll && s'.evs.Keys == s.evs.Keys
            && (forall x | x in s.evs :: s'.evs[x] == Fired(s.evs[x], Reasons(s, x, rs)))
    decreases |rs|
  {
    hide Inv, Report, Fired;
    if rs == [] {
      forall x | x in s.evs ensures s.evs[x] == Fired(s.evs[x], Reasons(s, x, rs)) { FiredNone(s.evs[x]); }
    } else {
      ReportEffect(s, rs[0]);
      var s1 := Report(s, rs[0]);
      ReportAllEffect(s1, rs[1..]);
      forall x | x in s.evs ensures ReportAll(s, rs).evs[x] == Fired(s.evs[x], Reasons(s, x, rs)) {
        ReasonsSame(s, s1, x, rs[1..]);
        FiredTwice(s.evs[x], Reasons(s, x, [rs[0]]), Reasons(s, x, rs[1..]));
        ReasonsSplit(s, x, rs);
      }
    }
  }

  lemma FiredNone(ev: Ev)
    ensures Fired(ev, {}) == ev
  {
  }

  lemma ReasonsSplit(s: State, e: Event, rs: seq<EpollEvent>)
    requires rs != []
    ensures Reasons(s, e, rs) == Reasons(s, e, [rs[0]]) + Reasons(s, e, rs[1..])
  {
    assert [rs[0]][1..] == [];
  }

  /** A reason is given exactly if the event is inserted for it and some report names its
      descriptor and that direction, or an error or hang-up. */
  lemma {:induction false} ReasonsExactly(s: State, e: Event, rs: seq<EpollEvent>)
    requires Inv(s) && e in s.evs
    ensures Read in Reasons(s, e, rs) <==>
              On(s, e, Inserted) && Read in s.evs[e].events &&
              exists r | r in rs :: r.fd == s.evs[e].fd && r.events * {EpollIn, EpollErr, EpollHup} != {}
    ensures Write in Reasons(s, e, rs) <==>
              On(s, e, Inserted) && Write in s.evs[e].events &&
              exists r | r in rs :: r.fd == s.evs[e].fd && r.events * {EpollOut, EpollErr, EpollHup} != {}
    ensures Reasons(s, e, rs) <= IO_EVENTS
    decreases |rs|
  {
    hide Inv;
    if rs != [] {
      ReasonsExactly(s, e, rs[1..]);
      HeadReason(s, e, rs[0]);
      assert forall r | r in rs :: r == rs[0] || r in rs[1..];
      assert forall r | r in rs[1..] :: r in rs;
    }
  }

  lemma HeadReason(s: State, e: Event, r: EpollEvent)
    requires Inv(s) && e in s.evs
    ensures ReportedReader(s.poll.table, r) == e <==>
              On(s, e, Inserted) && Read in s.evs[e].events && r.fd == s.evs[e].fd && r.events * {EpollIn, EpollErr, EpollHup} != {}
    ensures ReportedWriter(s.poll.table, r) == e <==>
              On(s, e, Inserted) && Write in s.evs[e].events && r.fd == s.evs[e].fd && r.events * {EpollOut, EpollErr, EpollHup} != {}
  {
    hide Core, Signals, Agree, SelfPipe;
    SlotInterested(s, r);
    BitsNonEmpty(r.events, EpollIn);
    BitsNonEmpty(r.events, EpollOut);
  }

  lemma BitsNonEmpty(events: set<Bit>, b: Bit)
    ensures events * {b, EpollErr, EpollHup} != {} <==> b in events || EpollErr in events || EpollHup in events
  {
    if events * {b, EpollErr, EpollHup} != {} {
      var x :| x in events * {b, EpollErr, EpollHup};
    }
    assert b in events ==> b in events * {b, EpollErr, EpollHup};
    assert EpollErr in events ==> EpollErr in events * {b, EpollErr, EpollHup};
    assert EpollHup in events ==> EpollHup in events * {b, EpollErr, EpollHup};
  }

  // ----- both -----

  /** Some report names the event's descriptor with the direction `what`, an error or a
      hang-up, while it is inserted for it. */
  ghost predicate ReportedFor(s: State, e: Event, what: What, rs: seq<EpollEvent>) {
    && e in s.evs && On(s, e, Inserted) && what in s.evs[e].events
    && exists r | r in rs :: r.fd == s.evs[e].fd
                             && r.events * {if what == Read then EpollIn else EpollOut, EpollErr, EpollHup} != {}
  }

  /** What epoll_dispatch owes every event when `caught` counts the signals and `rs` are the
      kernel's reports; `caught` is empty if nobody looks at the signals. */
  ghost predicate Answered(s: State, s': State, caught: seq<nat>, rs: seq<EpollEvent>) {
    s'.evs.Keys == s.evs.Keys && forall e | e in s.evs :: s'.evs[e] == AnsweredEv(s, e, caught, rs)
  }

  /** An event of a caught signal becomes active for it with the number of times it was
      caught, and if it is not persistent it is deleted first; one that is reported becomes
      active for the reported reasons with one call; an event that is active already keeps
      its count and collects reasons; any other event is left alone. */
  ghost function AnsweredEv(s: State, e: Event, caught: seq<nat>, rs: seq<EpollEvent>): Ev
    requires e in s.evs
  {
    var ev, rd, wr := s.evs[e], ReportedFor(s, e, Read, rs), ReportedFor(s, e, Write, rs);
    if Caught(s, e, caught, 1) then
      if Persist in ev.events && Active in ev.flags then ev.(res := ev.res + {Signal})
      else ev.(flags := (if Persist in ev.events then ev.flags else ev.flags - {Timeout, Inserted}) + {Active},
               res := {Signal}, ncalls := caught[ev.fd] % 0x1_0000, pncalls := 0)
    else if !rd && !wr then ev
    else
      var why := (if rd then {Read} else {}) + (if wr then {Write} else {});
      if Active in ev.flags then ev.(res := ev.res + why)
      else ev.(flags := ev.flags + {Active}, res := why, ncalls := 1, pncalls := 0)
  }

  lemma RaisedIs(ev: Ev, n: nat)
    ensures Raised(ev, n) ==
            if Persist in ev.events && Active in ev.flags then ev.(res := ev.res + {Signal})
            else ev.(flags := (if Persist in ev.events then ev.flags else ev.flags - {Timeout, Inserted}) + {Active},
                     res := {Signal}, ncalls := n % 0x1_0000, pncalls := 0)
  {
    ShortIs(n);
    assert ev.flags - QUEUES + {Active} == ev.flags - {Timeout, Inserted} + {Active};
  }

  lemma FiredIs(ev: Ev, why: set<What>)
    ensures Fired(ev, why) ==
            if why == {} then ev else if Active in ev.flags then ev.(res := ev.res + why)
            else ev.(flags := ev.flags + {Active}, res := why, ncalls := 1, pncalls := 0)
  {
    ShortIs(1);
  }

  /** A signal event waits for nothing else. */
  lemma SignalAlone(s: State, e: Event)
    requires Inv(s) && e in s.evs && Signal in s.evs[e].events
    ensures Read !in s.evs[e].events && Write !in s.evs[e].events
  {
    hide Wired, Lists, Counts;
    ShapeOf(s, e);
    assert s.evs[e].events * IO_EVENTS == {};
    assert Read !in s.evs[e].events * IO_EVENTS && Write !in s.evs[e].events * IO_EVENTS;
  }

  lemma ReasonsAre(s: State, e: Event, rs: seq<EpollEvent>)
    requires Inv(s) && e in s.evs
    ensures Reasons(s, e, rs) == (if ReportedFor(s, e, Read, rs) then {Read} else {}) + (if ReportedFor(s, e, Write, rs) then {Write} else {})
  {
    hide Inv, Reasons;
    ReasonsExactly(s, e, rs);
    forall w ensures w in Reasons(s, e, rs) <==>
                     w in (if ReportedFor(s, e, Read, rs) then {Read} else {}) + (if ReportedFor(s, e, Write, rs) then {Write} else {})
    {
      assert w in Reasons(s, e, rs) ==> w in IO_EVENTS;
    }
  }

  /** evsignal_process, if it runs, and then the loop over the reports come to just that. */
  lemma AnswersExactly(s: State, caught: seq<nat>, rs: seq<EpollEvent>)
    requires Inv(s) && (|caught| == NSIG || caught == [])
    ensures Answered(s, ReportAll(if caught == [] then s else RaiseFrom(s, caught, 1), rs), caught, rs)
  {
    hide Inv, RaiseFrom, ReportAll, Raised, Fired, Reasons, ReportedFor;
    var s1 := if caught == [] then s else RaiseFrom(s, caught, 1);
    if caught != [] { RaiseFromEffect(s, caught, 1); }
    forall e | e in s.evs && caught == [] ensures !Caught(s, e, caught, 1) { NoneCaught(s, e); }
    ReportAllEffect(s1, rs);
    forall e | e in s.evs ensures ReportAll(s1, rs).evs[e] == AnsweredEv(s, e, caught, rs) {
      ReasonsAre(s1, e, rs);
      FiredIs(s1.evs[e], Reasons(s1, e, rs));
      if Caught(s, e, caught, 1) {
        CaughtOnly(s, s1, e, caught, rs);
        RaisedIs(s.evs[e], caught[s.evs[e].fd]);
      } else {
        SameReported(s, s1, e, rs);
      }
    }
  }

  lemma NoneCaught(s: State, e: Event)
    ensures !Caught(s, e, [], 1)
  {
  }

  lemma SameReported(s: State, s1: State, e: Event, rs: seq<EpollEvent>)
    requires e in s.evs && e in s1.evs && s1.evs[e] == s.evs[e]
    ensures forall w :: ReportedFor(s1, e, w, rs) == ReportedFor(s, e, w, rs)
  {
  }

  lemma CaughtOnly(s: State, s1: State, e: Event, caught: seq<nat>, rs: seq<EpollEvent>)
    requires Inv(s) && Caught(s, e, caught, 1) && e in s1.evs && s1.evs[e] == Raised(s.evs[e], caught[s.evs[e].fd])
    ensures !ReportedFor(s1, e, Read, rs) && !ReportedFor(s1, e, Write, rs)
  {
    hide Inv, Raised;
    SignalAlone(s, e);
    RaisedStatic(s.evs[e], caught[s.evs[e].fd]);
  }
}
