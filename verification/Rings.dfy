/** The bounded rings of recent samples and events (go-engine/internal/stats/stats.go). */
module Rings {
  import opened Arithmetic

  /** Slots, and the next slot to overwrite once full. */
  datatype Ring<T> = Ring(slots: seq<T>, pos: nat)

  /** The slot after `pos`, round the ring. */
  function NextSlot(pos: nat, cap: nat): nat
    requires cap > 0
  {
    (pos + 1) % cap
  }

  lemma NextSlotWraps(pos: nat, cap: nat)
    requires pos < cap
    ensures NextSlot(pos, cap) == if pos + 1 < cap then pos + 1 else 0
  {
    if pos + 1 < cap {
      DivisionIsUnique(pos + 1, cap, 0, pos + 1);
    } else {
      DivisionIsUnique(pos + 1, cap, 1, 0);
    }
  }

  function Push<T>(r: Ring<T>, cap: nat, x: T): Ring<T>
    requires cap > 0 && (|r.slots| < cap || r.pos < |r.slots|)
  {
    if |r.slots| < cap then Ring(r.slots + [x], r.pos)
    else Ring(r.slots[r.pos := x], NextSlot(r.pos, cap))
  }

  predicate Usable<T>(r: Ring<T>, cap: nat) {
    |r.slots| <= cap && (if |r.slots| < cap then r.pos == 0 else r.pos < cap)
  }

  function Pushed<T>(xs: seq<T>, cap: nat): (r: Ring<T>)
    requires cap > 0
    ensures Usable(r, cap)
    decreases |xs|
  {
    if xs == [] then Ring([], 0) else Push(Pushed(xs[..|xs| - 1], cap), cap, xs[|xs| - 1])
  }

  /** The newest `cap` of `xs`, or all of them. */
  function Newest<T>(xs: seq<T>, cap: nat): seq<T> {
    if |xs| <= cap then xs else xs[|xs| - cap..]
  }

  /** The slots from oldest to newest. */
  function Unrolled<T>(r: Ring<T>): seq<T>
    requires r.pos <= |r.slots|
  {
    r.slots[r.pos..] + r.slots[..r.pos]
  }

  function Reversed<T>(xs: seq<T>): (r: seq<T>)
    ensures |r| == |xs|
  {
    seq(|xs|, i requires 0 <= i < |xs| => xs[|xs| - 1 - i])
  }

  lemma OverwritingDropsTheOldest<T>(r: Ring<T>, cap: nat, x: T)
    requires cap > 0 && |r.slots| == cap && r.pos < cap
    ensures Push(r, cap, x).pos <= cap
    ensures Unrolled(Push(r, cap, x)) == Unrolled(r)[1..] + [x]
  {
    hide NextSlot;
    var p, s := r.pos, r.slots;
    NextSlotWraps(p, cap);
    var n := Push(r, cap, x);
    if p + 1 < cap {
      assert n.pos == p + 1;
      assert n.slots[p + 1..] == s[p..][1..];
      assert n.slots[..p + 1] == s[..p] + [x];
    } else {
      assert n.pos == 0;
      assert n.slots == s[..p] + [x];
    }
  }

  lemma FillingAppends<T>(r: Ring<T>, cap: nat, x: T)
    requires |r.slots| < cap && r.pos == 0
    ensures Push(r, cap, x).pos == 0
    ensures Unrolled(Push(r, cap, x)) == Unrolled(r) + [x]
  {
    assert Unrolled(r) == r.slots;
  }

  lemma NewestDropsTheOldest<T>(xs: seq<T>, cap: nat)
    requires xs != [] && cap > 0
    ensures var before, x := Newest(xs[..|xs| - 1], cap), xs[|xs| - 1];
            Newest(xs, cap) == if |before| < cap then before + [x] else before[1..] + [x]
  {
    assert xs == xs[..|xs| - 1] + [xs[|xs| - 1]];
  }

  lemma UnrollingPermutes<T>(r: Ring<T>)
    requires r.pos <= |r.slots|
    ensures |Unrolled(r)| == |r.slots|
    ensures multiset(r.slots) == multiset(Unrolled(r))
  {
    assert r.slots == r.slots[..r.pos] + r.slots[r.pos..];
  }

  /** After any pushes, across any number of wrap-arounds, the ring unrolled from its oldest slot is the
      newest `cap` samples in order; as a multiset, its slots are those samples. */
  lemma {:induction false} RingHoldsTheNewest<T>(xs: seq<T>, cap: nat)
    requires cap > 0
    ensures Unrolled(Pushed(xs, cap)) == Newest(xs, cap)
    ensures multiset(Pushed(xs, cap).slots) == multiset(Newest(xs, cap))
    decreases |xs|
  {
    if xs != [] {
      var before, x := xs[..|xs| - 1], xs[|xs| - 1];
      var q := Pushed(before, cap);
      assert Pushed(xs, cap) == Push(q, cap, x);
      hide Pushed, Push, Newest, Unrolled;
      RingHoldsTheNewest(before, cap);
      UnrollingPermutes(q);
      NewestDropsTheOldest(xs, cap);
      if |q.slots| == cap {
        OverwritingDropsTheOldest(q, cap, x);
      } else {
        FillingAppends(q, cap, x);
      }
    }
    UnrollingPermutes(Pushed(xs, cap));
  }

  lemma UnrolledAt<T>(r: Ring<T>, i: nat)
    requires r.pos <= |r.slots| && i < |r.slots|
    ensures |Unrolled(r)| == |r.slots|
    ensures Unrolled(r)[|r.slots| - 1 - i]
         == r.slots[if i < r.pos then r.pos - 1 - i else r.pos - 1 - i + |r.slots|]
  {
  }

  /** Reading a ring newest first: backwards from the slot before the oldest, all the way round. */
  method NewestFirst<T>(r: Ring<T>, cap: nat, ghost xs: seq<T>) returns (out: seq<T>)
    requires cap > 0 && r == Pushed(xs, cap)
    ensures out == Reversed(Newest(xs, cap))
  {
    hide Pushed, Push, Newest;
    ghost var newest := Unrolled(r);
    RingHoldsTheNewest(xs, cap);
    UnrollingPermutes(r);
    var n := |r.slots|;
    out := [];
    if n < cap {
      assert newest == r.slots;
      var i := n - 1;
      while i >= 0
        invariant -1 <= i < n
        invariant |out| == n - 1 - i
        invariant forall k :: 0 <= k < |out| ==> out[k] == newest[n - 1 - k]
      {
        out := out + [r.slots[i]];
        i := i - 1;
      }
    } else {
      hide Unrolled;
      for i := 0 to n
        invariant |out| == i
        invariant forall k :: 0 <= k < i ==> out[k] == newest[n - 1 - k]
      {
        SlotBefore(r.pos, n, i);
        var idx := (r.pos - 1 - i + n * 2) % n;
        UnrolledAt(r, i);
        out := out + [r.slots[idx]];
      }
    }
  }

  /** Stepping back `i` slots from the oldest, round the ring. */
  lemma SlotBefore(pos: nat, n: nat, i: nat)
    requires pos < n && i < n
    ensures (pos - 1 - i + n * 2) % n == if i < pos then pos - 1 - i else pos - 1 - i + n
  {
    var slot := if i < pos then pos - 1 - i else pos - 1 - i + n;
    DivisionIsUnique(pos - 1 - i + n * 2, n, if i < pos then 2 else 1, slot);
  }
}
