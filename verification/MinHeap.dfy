/** The timer heap: an array of events ordered by ev_timeout that keeps in every
    event the index at which it sits. */
module MinHeaps {
  import opened Timevals
  import opened Events
  import opened HeapOrder

  /** Slots 0 .. |t|-1 of `p` hold exactly the events `members`, each knowing its slot, with
      deadlines `t`; slot `hole` counts as holding `e`, whatever is stored there. */
  ghost predicate Holds(p: array<Event?>, members: set<Event>, t: seq<Timeval>, hole: int, e: Event?)
    reads p, members`min_heap_idx, members`ev_timeout
  {
    && |t| <= p.Length && |members| == |t|
    && (forall i | 0 <= i < |t| && i != hole ::
          p[i] != null && p[i] != e && p[i] in members && p[i].min_heap_idx == i && p[i].ev_timeout == t[i])
    && (forall x | x in members && x != e ::
          0 <= x.min_heap_idx < |t| && x.min_heap_idx != hole && p[x.min_heap_idx] == x)
  }

  lemma SlotHolds(p: array<Event?>, members: set<Event>, t: seq<Timeval>, hole: int, e: Event?, i: nat)
    requires Holds(p, members, t, hole, e) && i < |t| && i != hole
    ensures i < p.Length && p[i] != null && p[i] != e && p[i] in members
    ensures p[i].min_heap_idx == i && p[i].ev_timeout == t[i]
  {
  }

  /** `struct min_heap`; p.Length is its `a`.  `elems` are the events it holds and
      `keys` their deadlines, slot by slot. */
  class MinHeap {
    var p: array<Event?>
    var n: nat
    ghost var elems: set<Event>
    ghost var keys: seq<Timeval>

    ghost predicate Valid()
      reads this, p, elems`min_heap_idx, elems`ev_timeout
    {
      |keys| == n && Holds(p, elems, keys, -1, null) && Ordered(keys)
    }

    /** min_heap_ctor */
    constructor ()
      ensures Valid() && elems == {} && fresh(p) && p.Length == 0
    {
      p, n, elems, keys := new Event?[0], 0, {}, [];
    }

    /** (p[to] = p[from])->min_heap_idx = to: the hole at `to` moves to `from`. */
    method Move(to: nat, from: nat, ghost e: Event, ghost members: set<Event>, ghost t: seq<Timeval>)
      requires e in members && Holds(p, members, t, to, e) && to != from
      requires to < |t| && from < |t| && t[to] == e.ev_timeout
      modifies p, members`min_heap_idx
      ensures Holds(p, members, Swap(t, to, from), from, e)
    {
      p[to] := p[from];
      p[to].min_heap_idx := to;
    }

    /** (p[hole] = e)->min_heap_idx = hole: the hole closes. */
    method Fill(hole: nat, e: Event, ghost members: set<Event>, ghost t: seq<Timeval>)
      requires e in members && Holds(p, members, t, hole, e)
      requires hole < |t| && t[hole] == e.ev_timeout
      modifies p, members`min_heap_idx
      ensures Holds(p, members, t, -1, null) && e.min_heap_idx == hole
    {
      p[hole] := e;
      e.min_heap_idx := hole;
    }

    /** min_heap_shift_up_, where `hole_index` is to receive `e`. */
    method ShiftUp(hole_index: nat, e: Event, ghost members: set<Event>, ghost t: seq<Timeval>)
      returns (ghost t': seq<Timeval>)
      requires e in members && Holds(p, members, t, hole_index, e)
      requires hole_index < |t| && RisingAt(t, hole_index) && t[hole_index] == e.ev_timeout
      modifies p, members`min_heap_idx
      ensures |t'| == |t| && Holds(p, members, t', -1, null) && Ordered(t')
      ensures InOrder(t, hole_index) ==> t' == t && e.min_heap_idx == hole_index
    {
      hide RisingAt, Ordered, Holds, InOrder, Later;
      ghost var still := InOrder(t, hole_index);
      Unfold(t, hole_index);
      var hole: nat := hole_index;
      var parent := (hole - 1) / 2;
      t' := t;
      if hole != 0 { SlotHolds(p, members, t', hole, e, parent); }
      while hole != 0 && Later(p[parent].ev_timeout, e.ev_timeout)
        invariant hole < |t'| == |t| && parent == (hole - 1) / 2
        invariant hole != 0 ==> 0 <= parent < p.Length && p[parent] != null && p[parent].ev_timeout == t'[parent]
        invariant RisingAt(t', hole) && t'[hole] == e.ev_timeout
        invariant Holds(p, members, t', hole, e)
        invariant still ==> hole == hole_index && t' == t
      {
        RiseStep(t', hole);
        Move(hole, parent, e, members, t');
        t' := Swap(t', hole, parent);
        hole := parent;
        parent := (hole - 1) / 2;
        if hole != 0 { SlotHolds(p, members, t', hole, e, parent); }
      }
      RiseDone(t', hole);
      Fill(hole, e, members, t');
    }

    /** min_heap_shift_down_.  Its closing call of min_heap_shift_up_ moves nothing: it
        only stores `e`.  When the erased event was the last one, the hole is slot n. */
    method ShiftDown(hole_index: nat, e: Event, ghost members: set<Event>, ghost t: seq<Timeval>)
      returns (ghost t': seq<Timeval>)
      requires e in members && Holds(p, members, t, hole_index, e)
      requires hole_index < |t| && SinkingAt(t, hole_index) && t[hole_index] == e.ev_timeout
      requires |t| == n || (|t| == n + 1 && hole_index == n)
      modifies p, members`min_heap_idx
      ensures |t'| == |t| && Holds(p, members, t', -1, null) && Ordered(t')
      ensures hole_index == n ==> t' == t && e.min_heap_idx == n
    {
      hide Ordered, OrderedBut, InOrder, Below, SinkingAt, RisingAt, Holds, Later;
      var hole := hole_index;
      var min_child := 2 * (hole + 1);
      t' := t;
      while min_child <= n
        invariant hole < |t'| == |t| && min_child == 2 * (hole + 1)
        invariant hole_index == n ==> hole == hole_index && t' == t
        invariant SinkingAt(t', hole) && t'[hole] == e.ev_timeout
        invariant Holds(p, members, t', hole, e)
        decreases |t| - hole
      {
        SlotHolds(p, members, t', hole, e, min_child - 1);
        if min_child < n { SlotHolds(p, members, t', hole, e, min_child); }
        if min_child == n || Later(p[min_child].ev_timeout, p[min_child-1].ev_timeout) {
          min_child := min_child - 1;
        }
        MinChild(t', hole, min_child);
        if !Later(e.ev_timeout, p[min_child].ev_timeout) {
          break;
        }
        SinkStep(t', hole, min_child);
        Move(hole, min_child, e, members, t');
        t' := Swap(t', hole, min_child);
        hole := min_child;
        min_child := 2 * (hole + 1);
      }
      SinkDone(t', hole);
      t' := ShiftUp(hole, e, members, t');
    }

    /** min_heap_reserve; `granted` is the outcome of realloc. */
    method Reserve(wanted: nat, granted: bool) returns (res: int)
      requires Valid()
      modifies this`p
      ensures Valid() && (res == 0 || res == -1)
      ensures res == 0 <==> old(p.Length) >= wanted || granted
      ensures res == 0 ==> p.Length == Capacity(old(p.Length), wanted)
      ensures res == 0 && old(p.Length) < wanted ==>
                var usual := if old(p.Length) == 0 then 8 else 2 * old(p.Length);
                p.Length == if wanted > usual then wanted else usual
      ensures p == old(p) || (fresh(p) && res == 0 && old(p.Length) < wanted)
    {
      if p.Length < wanted {
        if !granted {
          return -1;
        }
        var a := if p.Length != 0 then p.Length * 2 else 8;
        if a < wanted {
          a := wanted;
        }
        var q := new Event?[a](_ => null);
        forall i | 0 <= i < p.Length {
          q[i] := p[i];
        }
        p := q;
      }
      return 0;
    }

    /** min_heap_push; `granted` is the outcome of the realloc it may need. */
    method Push(e: Event, granted: bool) returns (res: int)
      requires Valid() && e !in elems
      modifies this, p, elems`min_heap_idx, e`min_heap_idx
      ensures Valid() && (res == 0 || res == -1)
      ensures res == 0 <==> old(n < p.Length) || granted
      ensures res == 0 ==> elems == old(elems) + {e} && n == old(n) + 1
      ensures res != 0 ==> unchanged(this) && unchanged(old(p)) && unchanged(e)
      ensures res == 0 ==> p.Length == Capacity(old(p.Length), n)
      ensures p == old(p) || (fresh(p) && old(n >= p.Length))
    {
      hide Valid, Capacity;
      res := Reserve(n + 1, granted);
      if res != 0 {
        return -1;
      }
      PutLast(e);
    }

    /** min_heap_shift_up_(s, s->n++, e) */
    method PutLast(e: Event)
      requires Valid() && e !in elems && n < p.Length
      modifies this`n, this`elems, this`keys, p, elems`min_heap_idx, e`min_heap_idx
      ensures Valid() && elems == old(elems) + {e} && n == old(n) + 1
    {
      hide Valid, Holds, Ordered, RisingAt, InOrder, Later;
      ghost var t := keys + [e.ev_timeout];
      OpensAtEnd(e);
      n, elems := n + 1, elems + {e};
      keys := ShiftUp(n - 1, e, elems, t);
      Whole();
    }

    lemma Whole()
      requires |keys| == n && Holds(p, elems, keys, -1, null) && Ordered(keys)
      ensures Valid()
    {
    }

    lemma OpensAtEnd(e: Event)
      requires Valid() && e !in elems && n < p.Length
      ensures n == |keys| && Holds(p, elems + {e}, keys + [e.ev_timeout], n, e)
      ensures RisingAt(keys + [e.ev_timeout], n)
    {
      RisingAtEnd(keys, e.ev_timeout);
    }

    /** min_heap_erase of an event that is in the heap, wherever it sits, or in none. */
    method Erase(e: Event) returns (res: int)
      requires Valid() && (e in elems || e.min_heap_idx == -1)
      modifies this`n, this`elems, this`keys, p, elems`min_heap_idx
      ensures Valid() && elems == old(elems) - {e} && e.min_heap_idx == -1
      ensures res == (if e in old(elems) then 0 else -1) && n == old(n) - (if e in old(elems) then 1 else 0)
    {
      hide Valid, Holds, Ordered, RisingAt, SinkingAt, InOrder, Later;
      if e.min_heap_idx == -1 {
        Outsider(e);
        return -1;
      }
      ghost var members, t := OpensAt(e);
      var hole := e.min_heap_idx;
      n := n - 1;
      var last := p[n];
      var parent := (hole - 1) / 2;
      if hole > 0 && Later(p[parent].ev_timeout, last.ev_timeout) {
        t := ShiftUp(hole, last, members, t);
      } else {
        t := ShiftDown(hole, last, members, t);
      }
      Retire(e, members, t);
      return 0;
    }

    lemma Outsider(e: Event)
      requires Valid() && e.min_heap_idx == -1
      ensures e !in elems && elems - {e} == elems
    {
    }

    /** What is left to do to erase `e`: give its slot to the last event, which is
        either earlier than the parent of that slot or not. */
    lemma OpensAt(e: Event) returns (members: set<Event>, t: seq<Timeval>)
      requires Valid() && e in elems
      ensures n == |elems| > 0 && n <= p.Length && p[n-1] != null
      ensures var last, hole := p[n-1], e.min_heap_idx;
              && last in members && 0 <= hole < |t| && t[hole] == last.ev_timeout
              && (if last == e then members == elems && |t| == n && hole == n - 1
                  else members == elems - {e} && |t| == n - 1)
              && Holds(p, members, t, hole, last)
              && (hole > 0 ==> p[(hole-1)/2] != null)
              && (if hole > 0 && Later(p[(hole-1)/2].ev_timeout, last.ev_timeout)
                  then last != e && RisingAt(t, hole) else SinkingAt(t, hole))
    {
      hide Valid, Holds, Ordered, InOrder, RisingAt, SinkingAt, Later;
      LastAndHole(e);
      var last, hole := p[n-1], e.min_heap_idx;
      members := if last == e then elems else elems - {e};
      ghost var base := if last == e then keys else keys[..n-1];
      t := base[hole := last.ev_timeout];
      PrefixOrdered(keys, n - 1);
      ReplaceAt(base, hole, last.ev_timeout);
      HoleHolds(e);
      if last == e {
        LastInPlace(keys, hole);
      }
    }

    lemma LastAndHole(e: Event)
      requires Valid() && e in elems
      ensures n == |elems| == |keys| > 0 && n <= p.Length && p[n-1] != null && p[n-1] in elems && Ordered(keys)
      ensures 0 <= e.min_heap_idx < n && (e.min_heap_idx == n - 1 <==> p[n-1] == e)
      ensures p[e.min_heap_idx] == e && keys[e.min_heap_idx] == e.ev_timeout
      ensures e.min_heap_idx > 0 ==> var parent := (e.min_heap_idx - 1) / 2;
                p[parent] != null && p[parent].ev_timeout == keys[parent]
    {
    }

    lemma HoleHolds(e: Event)
      requires Valid() && e in elems && n == |elems| == |keys| > 0 && n <= p.Length && p[n-1] != null && 0 <= e.min_heap_idx < n
      requires e.min_heap_idx == n - 1 <==> p[n-1] == e
      ensures var last, hole := p[n-1], e.min_heap_idx;
              var base := if last == e then keys else keys[..n-1];
              Holds(p, if last == e then elems else elems - {e}, base[hole := last.ev_timeout], hole, last)
    {
    }

    /** A deadline that is in its place is not earlier than its parent's. */
    lemma LastInPlace(t: seq<Timeval>, hole: nat)
      requires Ordered(t) && hole < |t|
      ensures hole > 0 ==> !Later(t[(hole-1)/2], t[hole])
    {
      assert InOrder(t, hole);
    }

    /** e->min_heap_idx = -1, once the slots below n no longer hold `e`. */
    method Retire(e: Event, ghost members: set<Event>, ghost t: seq<Timeval>)
      requires e in elems && Holds(p, members, t, -1, null) && Ordered(t)
      requires if e in members then members == elems && |t| == n + 1 && e.min_heap_idx == n
               else members == elems - {e} && |t| == n
      modifies this`elems, this`keys, e`min_heap_idx
      ensures Valid() && elems == old(elems) - {e} && e.min_heap_idx == -1
    {
      e.min_heap_idx := -1;
      elems, keys := elems - {e}, t[..n];
      PrefixOrdered(t, n);
    }

    /** min_heap_pop: the event with the earliest deadline leaves the heap. */
    method Pop() returns (e: Event?)
      requires Valid()
      modifies this`n, this`elems, this`keys, p, elems`min_heap_idx
      ensures Valid() && (e == null <==> old(elems) == {})
      ensures e == null ==> unchanged(this)
      ensures e != null ==>
                && e in old(elems) && elems == old(elems) - {e} && n == old(n) - 1 && e.min_heap_idx == -1
                && forall x | x in old(elems) :: !Later(e.ev_timeout, x.ev_timeout)
    {
      hide Valid, Holds, Ordered, RisingAt, SinkingAt, InOrder, Later;
      e := Top();
      if e == null {
        return;
      }
      AtTop(e);
      ghost var members, t := OpensAt(e);
      n := n - 1;
      t := ShiftDown(0, p[n], members, t);
      Retire(e, members, t);
    }

    lemma AtTop(e: Event)
      requires Valid() && e in elems && n > 0 && n <= p.Length && e == p[0]
      ensures e.min_heap_idx == 0
    {
    }

    /** min_heap_top: the event with the earliest deadline. */
    method Top() returns (e: Event?)
      requires Valid()
      ensures e == null <==> elems == {}
      ensures e != null ==> e in elems && forall x | x in elems :: !Later(e.ev_timeout, x.ev_timeout)
      ensures e != null ==> n > 0 && n <= p.Length && e == p[0]
    {
      e := if n != 0 then p[0] else null;
      if n != 0 {
        forall x | x in elems ensures !Later(e.ev_timeout, x.ev_timeout) {
          FirstIsEarliest(keys, x.min_heap_idx);
        }
      }
    }
  }

  /** How far min_heap_reserve lets the array grow: at least to its double, and no farther
      than that unless more is wanted. */
  function Capacity(a: nat, wanted: nat): (r: nat)
    ensures r >= a && r >= wanted
    ensures a >= wanted ==> r == a
    ensures a < wanted ==> var usual := if a == 0 then 8 else 2 * a; r >= usual && (r == wanted || r == usual)
  {
    if a >= wanted then a
    else if a == 0 then (if wanted > 8 then wanted else 8)
    else if 2 * a < wanted then wanted else 2 * a
  }

  ghost predicate Sorted(out: seq<Event>)
    reads out`ev_timeout
  {
    forall i, j | 0 <= i < j < |out| :: !Later(out[i].ev_timeout, out[j].ev_timeout)
  }

  ghost predicate AllBefore(out: seq<Event>, rest: set<Event>)
    reads out`ev_timeout, rest`ev_timeout
  {
    forall i, x | 0 <= i < |out| && x in rest :: !Later(out[i].ev_timeout, x.ev_timeout)
  }

  /** The events of `all` that are not in `rest` have come out, in order and before `rest`. */
  ghost predicate Emits(out: seq<Event>, all: set<Event>, rest: set<Event>)
    reads out`ev_timeout, rest`ev_timeout
  {
    && (set e | e in out) == all - rest && |out| == |all| - |rest| && rest <= all
    && Sorted(out) && AllBefore(out, rest)
  }

  lemma Emitted(out: seq<Event>, all: set<Event>, rest: set<Event>, e: Event)
    requires Emits(out, all, rest) && e in rest
    requires forall x | x in rest :: !Later(e.ev_timeout, x.ev_timeout)
    ensures Emits(out + [e], all, rest - {e})
  {
    hide Later;
    assert forall x :: x in out + [e] <==> x in out || x == e;
    assert forall x :: x in out <==> x in all - rest;
  }

  /** Pops until the heap is empty: it gives up its events in the order of their deadlines. */
  method PopAll(heap: MinHeap) returns (out: seq<Event>)
    requires heap.Valid()
    modifies heap`n, heap`elems, heap`keys, heap.p, heap.elems`min_heap_idx
    ensures heap.Valid() && heap.elems == {}
    ensures (set e | e in out) == old(heap.elems) && |out| == |old(heap.elems)| && Sorted(out)
  {
    hide MinHeap.Valid, Emits, Later;
    out := [];
    ghost var all := heap.elems;
    NothingEmitted(all);
    while true
      invariant heap.Valid() && heap.elems <= all && heap.p == old(heap.p)
      invariant Emits(out, all, heap.elems)
      decreases |heap.elems|
    {
      ghost var rest := heap.elems;
      var e := heap.Pop();
      if e == null {
        break;
      }
      Emitted(out, all, rest, e);
      out := out + [e];
    }
    AllEmitted(out, all);
  }

  lemma AllEmitted(out: seq<Event>, all: set<Event>)
    requires Emits(out, all, {})
    ensures (set e | e in out) == all && |out| == |all| && Sorted(out)
  {
  }

  lemma NothingEmitted(all: set<Event>)
    ensures Emits([], all, all)
  {
  }
}
