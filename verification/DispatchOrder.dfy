/** In what order epoll_dispatch lets events join their queues. */
module DispatchOrder {
  import opened Seqs
  import opened Timevals
  import opened Events
  import opened Epoll
  import opened BaseState
  import opened BaseInv
  import opened BaseEffects
  import opened Timeouts
  import opened ActivePass
  import opened Dispatch

  // ----- ready descriptors -----

  /** The events a report names: the reader before the writer. */
  function Named(table: seq<FdSlot>, r: EpollEvent): seq<Event> {
    var rd, wr := ReportedReader(table, r), ReportedWriter(table, r);
    (if rd != null then [rd] else []) + (if wr != null then [wr] else [])
  }

  function NamedAll(table: seq<FdSlot>, rs: seq<EpollEvent>): seq<Event> {
    if rs == [] then [] else Named(table, rs[0]) + NamedAll(table, rs[1..])
  }

  /** The events of `list` with priority `q` that are not active, each where it comes first;
      those in `seen` have come before. */
  function Newly(s: State, list: seq<Event>, q: nat, seen: set<Event>): seq<Event> {
    if list == [] then []
    else if Of(s, list[0]).pri != q || Active in Of(s, list[0]).flags || list[0] in seen then Newly(s, list[1..], q, seen)
    else [list[0]] + Newly(s, list[1..], q, seen + {list[0]})
  }

  lemma {:induction false} NewlySame(s: State, s': State, list: seq<Event>, q: nat, seen: set<Event>, seen': set<Event>)
    requires forall x :: Of(s', x).pri == Of(s, x).pri
    requires forall x | Of(s, x).pri == q :: (Active in Of(s, x).flags || x in seen) <==> (Active in Of(s', x).flags || x in seen')
    ensures Newly(s', list, q, seen') == Newly(s, list, q, seen)
  {
    if list != [] {
      NewlySame(s, s', list[1..], q, seen, seen');
      if Of(s, list[0]).pri == q && Active !in Of(s, list[0]).flags && list[0] !in seen {
        NewlySame(s, s', list[1..], q, seen + {list[0]}, seen' + {list[0]});
      }
    }
  }

  /** event_active of one named event takes it from the head of what is to come. */
  lemma OneJoins(s: State, e: Event?, what: What, rest: seq<Event>, q: nat)
    requires Core(s) && q < |s.active| && (e != null ==> e in s.evs)
    ensures var s' := MakeActiveIf(s, e, what);
            && |s'.active| == |s.active|
            && s'.active[q] + Newly(s', rest, q, {}) == s.active[q] + Newly(s, (if e != null then [e] else []) + rest, q, {})
  {
    hide Core, Newly, MakeActive;
    var s' := MakeActiveIf(s, e, what);
    if e == null {
      assert [] + rest == rest;
    } else {
      var list := [e] + rest;
      assert list[0] == e && list[1..] == rest;
      NewlyHead(s, list, q);
      if Active in s.evs[e].flags {
        ActiveAgain(s, e, {what}, 1);
        NewlySame(s, s', rest, q, {}, {});
      } else {
        ActiveEffect(s, e, {what}, 1);
        NewlyJoined(s, s', e, rest, q);
      }
    }
  }

  lemma NewlyJoined(s: State, s': State, e: Event, rest: seq<Event>, q: nat)
    requires e in s.evs && Active !in s.evs[e].flags && s'.evs == s.evs[e := Of(s', e)]
    requires Active in Of(s', e).flags && Of(s', e).pri == s.evs[e].pri
    ensures Newly(s', rest, q, {}) == Newly(s, rest, q, if s.evs[e].pri == q then {e} else {})
  {
    hide Newly;
    NewlySame(s, s', rest, q, if s.evs[e].pri == q then {e} else {}, {});
  }

  lemma NewlyHead(s: State, list: seq<Event>, q: nat)
    requires list != []
    ensures Newly(s, list, q, {}) ==
            if Of(s, list[0]).pri != q || Active in Of(s, list[0]).flags then Newly(s, list[1..], q, {})
            else [list[0]] + Newly(s, list[1..], q, {list[0]})
  {
    assert {} + {list[0]} == {list[0]};
  }

  lemma CoreIs(s: State)
    requires Inv(s)
    ensures Core(s)
  {
  }

  lemma ReportJoins(s: State, r: EpollEvent, rest: seq<Event>, q: nat)
    requires Inv(s) && q < |s.active|
    ensures var s' := Report(s, r);
            && |s'.active| == |s.active|
            && s'.active[q] + Newly(s', rest, q, {}) == s.active[q] + Newly(s, Named(s.poll.table, r) + rest, q, {})
  {
    hide Inv, MakeActiveIf, Newly, ReportedReader, ReportedWriter, Named;
    var rd, wr := ReportedReader(s.poll.table, r), ReportedWriter(s.poll.table, r);
    SlotsKnown(s, r);
    ReaderActive(s, r);
    var s1 := MakeActiveIf(s, rd, Read);
    CoreIs(s);
    NamedIs(s.poll.table, r, rest);
    OneJoins(s, rd, Read, (if wr != null then [wr] else []) + rest, q);
    OneJoins(s1, wr, Write, rest, q);
  }

  lemma ReaderActive(s: State, r: EpollEvent)
    requires Inv(s)
    ensures var s1 := MakeActiveIf(s, ReportedReader(s.poll.table, r), Read); Core(s1) && s1.evs.Keys == s.evs.Keys
  {
    hide Inv, MakeActiveIf, ReportedReader, Fired;
    SlotInterested(s, r);
    ActivatedIf(s, ReportedReader(s.poll.table, r), Read, r.fd);
    CoreIs(MakeActiveIf(s, ReportedReader(s.poll.table, r), Read));
  }

  lemma SlotsKnown(s: State, r: EpollEvent)
    requires Inv(s)
    ensures var rd := ReportedReader(s.poll.table, r); rd != null ==> rd in s.evs && InterestedIn(s, rd, r.fd, Read)
    ensures var wr := ReportedWriter(s.poll.table, r); wr != null ==> wr in s.evs
  {
    hide Inv, ReportedReader, ReportedWriter;
    SlotInterested(s, r);
  }

  lemma NamedIs(table: seq<FdSlot>, r: EpollEvent, rest: seq<Event>)
    ensures var rd, wr := ReportedReader(table, r), ReportedWriter(table, r);
            Named(table, r) + rest == (if rd != null then [rd] else []) + ((if wr != null then [wr] else []) + rest)
  {
    hide ReportedReader, ReportedWriter;
  }

  /** The reports are taken in order, and each event that becomes active joins the end of its
      queue: the queue gains the named events that were idle, in the order they are named. */
  lemma {:induction false} ReportOrder(s: State, rs: seq<EpollEvent>, q: nat)
    requires Inv(s) && q < |s.active|
    ensures var s' := ReportAll(s, rs);
            |s'.active| == |s.active| && s'.active[q] == s.active[q] + Newly(s, NamedAll(s.poll.table, rs), q, {})
    decreases |rs|
  {
    hide Inv, Report, Newly, Named, Fired;
    if rs == [] {
      NewlyNone(s, q);
    } else {
      ReportEffect(s, rs[0]);
      ReportJoins(s, rs[0], NamedAll(s.poll.table, rs[1..]), q);
      ReportOrder(Report(s, rs[0]), rs[1..], q);
    }
  }

  lemma NewlyNone(s: State, q: nat)
    ensures s.active[..] == s.active && Newly(s, [], q, {}) == []
  {
  }

  // ----- caught signals -----

  /** The events on the lists of the signals caught, from signal `from` on. */
  function CaughtList(s: State, caught: seq<nat>, from: nat): seq<Event>
    decreases |caught| - from
  {
    if from >= |caught| then []
    else (if caught[from] == 0 then [] else ListAt(s.sigs, from)) + CaughtList(s, caught, from + 1)
  }

  /** Those of `list` that are deleted, and those of priority `q` that are appended. */
  function Leaving(s: State, list: seq<Event>): set<Event> {
    set e | e in list && Persist !in Of(s, e).events
  }

  function Joining(s: State, list: seq<Event>, q: nat): seq<Event> {
    if list == [] then []
    else if Of(s, list[0]).pri == q && (Persist !in Of(s, list[0]).events || Active !in Of(s, list[0]).flags)
    then [list[0]] + Joining(s, list[1..], q)
    else Joining(s, list[1..], q)
  }

  lemma {:induction false} JoiningSame(s: State, s': State, list: seq<Event>, q: nat)
    requires forall x | x in list :: Of(s', x) == Of(s, x)
    ensures Joining(s', list, q) == Joining(s, list, q)
  {
    if list != [] {
      JoiningSame(s, s', list[1..], q);
    }
  }

  lemma {:induction false} JoiningIn(s: State, list: seq<Event>, q: nat)
    ensures forall x | x in Joining(s, list, q) :: x in list
  {
    if list != [] {
      JoiningIn(s, list[1..], q);
    }
  }

  lemma {:induction false} JoiningPlus(s: State, a: seq<Event>, b: seq<Event>, q: nat)
    ensures Joining(s, a + b, q) == Joining(s, a, q) + Joining(s, b, q)
  {
    hide Of;
    if a == [] {
      assert a + b == b;
    } else {
      JoiningPlus(s, a[1..], b, q);
      assert (a + b)[1..] == a[1..] + b && (a + b)[0] == a[0];
    }
  }

  lemma LeavingPlus(s: State, a: seq<Event>, b: seq<Event>)
    ensures Leaving(s, a + b) == Leaving(s, a) + Leaving(s, b)
  {
  }

  lemma LeavingSame(s: State, s': State, list: seq<Event>)
    requires forall x | x in list :: Of(s', x) == Of(s, x)
    ensures Leaving(s', list) == Leaving(s, list)
  {
  }

  /** A queue after the events of `list` have been raised. */
  ghost predicate Gains(s: State, s': State, list: seq<Event>, q: nat) {
    && q < |s.active| == |s'.active|
    && s'.active[q] == Drop(s.active[q], Leaving(s, list)) + Joining(s, list, q)
  }

  /** Raising one list of events after another raises both. */
  lemma GainsTwice(s: State, s1: State, s2: State, a: seq<Event>, b: seq<Event>, q: nat)
    requires Gains(s, s1, a, q) && Gains(s1, s2, b, q)
    requires forall x | x in b :: x !in a && Of(s1, x) == Of(s, x)
    ensures Gains(s, s2, a + b, q)
  {
    hide Joining;
    LeavingSame(s, s1, b);
    JoiningSame(s, s1, b, q);
    JoiningPlus(s, a, b, q);
    LeavingPlus(s, a, b);
    JoiningIn(s, a, q);
    DropPlus(Drop(s.active[q], Leaving(s, a)), Joining(s, a, q), Leaving(s, b));
    DropDrop(s.active[q], Leaving(s, a), Leaving(s, b));
    DropNone(Joining(s, a, q), Leaving(s, b));
  }

  lemma RaiseGains(s: State, e: Event, n: nat, q: nat)
    requires Inv(s) && e in s.evs && e != s.sigEvent && q < |s.active|
    ensures Gains(s, Raise(s, e, n), [e], q)
  {
    hide Inv, Del, Drop, Without, MakeActive;
    CoreIs(s);
    NoDups(s);
    DropNothing(s.active[q]);
    WithoutIsDrop(s.active[q], e);
    JoiningOne(s, e, q);
    if Persist in s.evs[e].events {
      RaisedJoins(s, e, n, q);
      assert Leaving(s, [e]) == {};
    } else {
      DelInv(s, e);
      DelEffect(s, e);
      var s1 := Del(s, e).0;
      CoreIs(s1);
      RaisedJoins(s1, e, n, q);
      ElsewhereOnly(s, e, q);
      assert Leaving(s, [e]) == {e};
    }
  }

  lemma JoiningOne(s: State, e: Event, q: nat)
    ensures Joining(s, [e], q) == if Of(s, e).pri == q && (Persist !in Of(s, e).events || Active !in Of(s, e).flags) then [e] else []
  {
    assert [e][1..] == [];
  }

  lemma RaisedJoins(s: State, e: Event, n: nat, q: nat)
    requires Core(s) && e in s.evs && q < |s.active|
    ensures var s' := MakeActive(s, e, {Signal}, n);
            && |s'.active| == |s.active|
            && s'.active[q] == s.active[q] + if s.evs[e].pri == q && Active !in s.evs[e].flags then [e] else []
  {
    hide Core, MakeActive;
    assert s.active[q] + [] == s.active[q];
    if Active in s.evs[e].flags { ActiveAgain(s, e, {Signal}, n); } else { ActiveEffect(s, e, {Signal}, n); }
  }

  /** On the queue of another priority there is nothing to delete. */
  lemma ElsewhereOnly(s: State, e: Event, q: nat)
    requires Core(s) && e in s.evs && q < |s.active|
    ensures Of(s, e).pri != q ==> Without(s.active[q], e) == s.active[q]
    ensures 0 <= Of(s, e).pri < |s.active|
  {
    ShapeOf(s, e);
    if s.evs[e].pri != q {
      NotElsewhere(s, e, q);
      WithoutAbsent(s.active[q], e);
    }
  }

  lemma {:induction false} RaiseAllGains(s: State, list: seq<Event>, sig: nat, n: nat, q: nat)
    requires Inv(s) && Listening(s, list, sig) && q < |s.active|
    ensures Gains(s, RaiseAll(s, list, n), list, q)
    decreases |list|
  {
    hide Inv, Raise, Raised, Gains, Drop, Joining;
    if list == [] {
      NothingGained(s, q);
    } else {
      var e, rest, s1 := list[0], list[1..], Raise(s, list[0], n);
      assert [e] + rest == list && e in list;
      RaiseEffect(s, e, n);
      RaiseGains(s, e, n, q);
      ListeningRest(s, s1, e, rest, sig);
      GainsLength(s, s1, [e], q);
      RaiseAllGains(s1, rest, sig, n, q);
      GainsTwice(s, s1, RaiseAll(s1, rest, n), [e], rest, q);
    }
  }

  lemma NothingGained(s: State, q: nat)
    requires q < |s.active|
    ensures Gains(s, s, [], q)
  {
    DropNothing(s.active[q]);
    assert Leaving(s, []) == {};
  }

  lemma GainsLength(s: State, s': State, list: seq<Event>, q: nat)
    requires Gains(s, s', list, q)
    ensures q < |s'.active|
  {
  }

  lemma {:induction false} CaughtSame(s: State, s': State, caught: seq<nat>, from: nat)
    requires forall j | from <= j :: ListAt(s'.sigs, j) == ListAt(s.sigs, j)
    ensures CaughtList(s', caught, from) == CaughtList(s, caught, from)
    decreases |caught| - from
  {
    if from < |caught| {
      CaughtSame(s, s', caught, from + 1);
    }
  }

  /** The events on later lists listen to later signals. */
  lemma {:induction false} CaughtLater(s: State, caught: seq<nat>, from: nat)
    requires Inv(s) && |caught| == NSIG
    ensures forall x | x in CaughtList(s, caught, from) :: x in s.evs && s.evs[x].fd >= from
    decreases |caught| - from
  {
    hide Inv;
    if from < |caught| {
      ListedIffKnown(s, from);
      CaughtLater(s, caught, from + 1);
    }
  }

  lemma ListedIffKnown(s: State, sig: nat)
    requires Inv(s) && sig < NSIG
    ensures forall x | x in ListAt(s.sigs, sig) :: x in s.evs && s.evs[x].fd == sig
  {
    hide Inv;
    WholeListening(s, sig);
  }

  /** evsignal_process in order: signals by number, the events of one in the order they were
      added; an event that is deleted first leaves its place on a queue for a new one. */
  lemma {:induction false} RaiseOrder(s: State, caught: seq<nat>, from: nat, q: nat)
    requires Inv(s) && |caught| == NSIG && from <= NSIG && q < |s.active|
    ensures Gains(s, RaiseFrom(s, caught, from), CaughtList(s, caught, from), q)
    decreases NSIG - from
  {
    hide Inv, Raised, Gains, RaiseAll, Listening, Drop, Joining;
    if from == NSIG {
      NothingGained(s, q);
    } else {
      var n, list := caught[from], if caught[from] == 0 then [] else ListAt(s.sigs, from);
      var s1 := RaiseOne(s, from, n);
      WholeListening(s, from);
      RaiseOneEffect(s, from, n);
      if n == 0 { NothingGained(s, q); } else { RaiseAllGains(s, s.sigs[from], from, n, q); }
      GainsLength(s, s1, list, q);
      RaiseOrder(s1, caught, from + 1, q);
      CaughtSame(s, s1, caught, from + 1);
      CaughtLater(s, caught, from + 1);
      ListedIffKnown(s, from);
      GainsTwice(s, s1, RaiseFrom(s1, caught, from + 1), list, CaughtList(s, caught, from + 1), q);
    }
  }
}
