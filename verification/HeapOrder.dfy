/** The order of a binary heap, on the bare sequence of its deadlines. */
module HeapOrder {
  import opened Timevals

  /** Position `i` is not earlier than its parent. */
  ghost predicate InOrder(t: seq<Timeval>, i: nat)
    requires i < |t|
  {
    i == 0 || !Later(t[(i-1)/2], t[i])
  }

  ghost predicate Ordered(t: seq<Timeval>) {
    forall i {:trigger InOrder(t, i)} | 0 <= i < |t| :: InOrder(t, i)
  }

  /** Apart from the pairs that `hole` is in, `t` is in order. */
  ghost predicate OrderedBut(t: seq<Timeval>, hole: nat) {
    forall i {:trigger InOrder(t, i)} | 0 <= i < |t| && i != hole && (i-1)/2 != hole :: InOrder(t, i)
  }

  /** `x` is not later than either child of `hole`. */
  ghost predicate Below(x: Timeval, t: seq<Timeval>, hole: nat) {
    && (2 * hole + 1 < |t| ==> !Later(x, t[2*hole+1]))
    && (2 * hole + 2 < |t| ==> !Later(x, t[2*hole+2]))
  }

  /** `t` is in order except that `hole` may be earlier than its parent. */
  ghost predicate RisingAt(t: seq<Timeval>, hole: nat) {
    && hole < |t| && OrderedBut(t, hole) && Below(t[hole], t, hole)
    && (hole > 0 ==> Below(t[(hole-1)/2], t, hole))
  }

  /** `t` is in order except that `hole` may be later than its children. */
  ghost predicate SinkingAt(t: seq<Timeval>, hole: nat) {
    && hole < |t| && OrderedBut(t, hole) && InOrder(t, hole)
    && (hole > 0 ==> Below(t[(hole-1)/2], t, hole))
  }

  function Swap(t: seq<Timeval>, i: nat, j: nat): seq<Timeval>
    requires i < |t| && j < |t|
  {
    t[i := t[j]][j := t[i]]
  }

  lemma RiseStep(t: seq<Timeval>, hole: nat)
    requires RisingAt(t, hole) && hole > 0 && Later(t[(hole-1)/2], t[hole])
    ensures RisingAt(Swap(t, hole, (hole-1)/2), (hole-1)/2)
  {
    var parent := (hole-1)/2;
    var t' := Swap(t, hole, parent);
    assert parent > 0 ==> InOrder(t, parent);
    var sibling := if hole == 2 * parent + 1 then hole + 1 else hole - 1;
    assert sibling < |t| ==> InOrder(t, sibling);
    forall i | 0 <= i < |t'| && i != parent && (i-1)/2 != parent
      ensures InOrder(t', i)
    {
      assert (i-1)/2 != hole ==> InOrder(t, i);
    }
  }

  lemma Unfold(t: seq<Timeval>, hole: nat)
    requires hole < |t|
    ensures InOrder(t, hole) <==> hole == 0 || !Later(t[(hole-1)/2], t[hole])
  {
  }

  lemma RiseDone(t: seq<Timeval>, hole: nat)
    requires RisingAt(t, hole) && (hole == 0 || !Later(t[(hole-1)/2], t[hole]))
    ensures Ordered(t)
  {
    forall i | 0 <= i < |t| ensures InOrder(t, i) {
      if (i-1)/2 == hole { assert i == 2*hole+1 || i == 2*hole+2; }
    }
  }

  lemma SinkStep(t: seq<Timeval>, hole: nat, child: nat)
    requires SinkingAt(t, hole) && child < |t| && (child == 2*hole+1 || child == 2*hole+2)
    requires Below(t[child], t, hole) && Later(t[hole], t[child])
    ensures SinkingAt(Swap(t, hole, child), child)
  {
    var t' := Swap(t, hole, child);
    assert 2*child+1 < |t| ==> InOrder(t, 2*child+1);
    assert 2*child+2 < |t| ==> InOrder(t, 2*child+2);
    forall i | 0 <= i < |t'| && i != child && (i-1)/2 != child
      ensures InOrder(t', i)
    {
      if i != hole && (i-1)/2 != hole { assert InOrder(t, i); }
    }
  }

  /** The first deadline is the earliest of all. */
  lemma {:induction false} FirstIsEarliest(t: seq<Timeval>, i: nat)
    requires Ordered(t) && i < |t|
    ensures !Later(t[0], t[i])
  {
    if i > 0 {
      FirstIsEarliest(t, (i-1)/2);
      assert InOrder(t, i);
    }
  }

  /** A prefix of an ordered sequence is ordered. */
  lemma PrefixOrdered(t: seq<Timeval>, m: nat)
    requires Ordered(t) && m <= |t|
    ensures Ordered(t[..m])
  {
    forall i | 0 <= i < m ensures InOrder(t[..m], i) {
      assert InOrder(t, i);
    }
  }

  /** Putting any deadline in place of `t[hole]` leaves it either rising or sinking,
      according to the comparison with its parent. */
  lemma ReplaceAt(t: seq<Timeval>, hole: nat, x: Timeval)
    requires Ordered(t) && hole < |t|
    ensures hole > 0 && Later(t[(hole-1)/2], x) ==> RisingAt(t[hole := x], hole)
    ensures !(hole > 0 && Later(t[(hole-1)/2], x)) ==> SinkingAt(t[hole := x], hole)
  {
    var t' := t[hole := x];
    assert InOrder(t, hole);
    assert 2*hole+1 < |t| ==> InOrder(t, 2*hole+1);
    assert 2*hole+2 < |t| ==> InOrder(t, 2*hole+2);
    forall i | 0 <= i < |t'| && i != hole && (i-1)/2 != hole ensures InOrder(t', i) {
      assert InOrder(t, i);
    }
  }

  lemma RisingAtEnd(t: seq<Timeval>, x: Timeval)
    requires Ordered(t)
    ensures RisingAt(t + [x], |t|)
  {
    var t' := t + [x];
    forall i | 0 <= i < |t'| && i != |t| && (i-1)/2 != |t| ensures InOrder(t', i) {
      assert InOrder(t, i);
    }
  }

  lemma SinkDone(t: seq<Timeval>, hole: nat)
    requires SinkingAt(t, hole) && (2 * hole + 1 < |t| ==> Below(t[hole], t, hole))
    ensures RisingAt(t, hole) && InOrder(t, hole)
  {
  }

  /** The child that is not later than its sibling, if there is one, is below no deadline
      but those that are below both. */
  lemma MinChild(t: seq<Timeval>, hole: nat, child: nat)
    requires child < |t|
    requires if child == 2*hole+1 then child + 1 == |t| || Later(t[child+1], t[child])
             else child == 2*hole+2 && !Later(t[child], t[child-1])
    ensures Below(t[child], t, hole)
    ensures !Later(t[hole], t[child]) ==> Below(t[hole], t, hole)
  {
  }
}
