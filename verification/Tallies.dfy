/** Sums and histograms of lists, as the telemetry store keeps them (go-engine/internal/stats/stats.go). */
module Tallies {

  function Total(xs: seq<real>): real {
    if xs == [] then 0.0 else Total(xs[..|xs| - 1]) + xs[|xs| - 1]
  }

  function Count(xs: seq<nat>): nat {
    if xs == [] then 0 else Count(xs[..|xs| - 1]) + xs[|xs| - 1]
  }

  /** How often each of the buckets below `n` occurs in `bs`. */
  ghost function Histogram(bs: seq<nat>, n: nat): (h: seq<nat>)
    ensures |h| == n
  {
    seq(n, j => multiset(bs)[j])
  }

  function Bump(h: seq<nat>, b: nat): (r: seq<nat>)
    requires b < |h|
    ensures |r| == |h|
  {
    h[b := h[b] + 1]
  }

  lemma TotalGrows(xs: seq<real>, x: real)
    ensures Total(xs + [x]) == Total(xs) + x
  {
    assert (xs + [x])[..|xs|] == xs;
  }

  lemma HistogramGrows(bs: seq<nat>, b: nat, n: nat)
    requires b < n
    ensures Histogram(bs + [b], n) == Bump(Histogram(bs, n), b)
  {
  }

  lemma {:induction false} CountAfterBump(h: seq<nat>, b: nat)
    requires b < |h|
    ensures Count(Bump(h, b)) == Count(h) + 1
  {
    var front := h[..|h| - 1];
    if b == |h| - 1 {
      assert Bump(h, b)[..|h| - 1] == front;
    } else {
      assert Bump(h, b)[..|h| - 1] == Bump(front, b);
      CountAfterBump(front, b);
    }
  }

  lemma {:induction false} EmptyHistogram(n: nat)
    ensures Histogram([], n) == seq(n, _ => 0)
    ensures Count(Histogram([], n)) == 0
  {
    if n > 0 {
      EmptyHistogram(n - 1);
      assert Histogram([], n)[..n - 1] == Histogram([], n - 1);
    }
  }

  /** Every item lands in exactly one bucket: the buckets add up to the number of items. */
  lemma {:induction false} HistogramCountsEveryItem(bs: seq<nat>, n: nat)
    requires forall i :: 0 <= i < |bs| ==> bs[i] < n
    ensures Count(Histogram(bs, n)) == |bs|
  {
    if bs == [] {
      EmptyHistogram(n);
    } else {
      var front, b := bs[..|bs| - 1], bs[|bs| - 1];
      assert bs == front + [b];
      HistogramCountsEveryItem(front, n);
      HistogramGrows(front, b, n);
      CountAfterBump(Histogram(front, n), b);
    }
  }
}
