/** `iter.filter_map(f).collect()`, the shape every host enumeration in the
    audio layer goes through, together with a positional description of
    what it keeps. */
module Iterators {
  import opened Wrappers

  /** Keeps the `Some` payloads of `f` over `xs`, in the order of `xs`. */
  function FilterMap<A, B>(xs: seq<A>, f: A -> Option<B>): (r: seq<B>)
    ensures |r| <= |xs|
    decreases |xs|
  {
    if |xs| == 0 then []
    else
      var head := match f(xs[0]) case Some(y) => [y] case None => [];
      head + FilterMap(xs[1..], f)
  }

  /** The positions of `xs` that `f` maps to `Some`, in increasing order. */
  function Kept<A, B>(xs: seq<A>, f: A -> Option<B>): (idx: seq<nat>)
    decreases |xs|
  {
    if |xs| == 0 then []
    else (if f(xs[0]).Some? then [0] else []) + Shift(Kept(xs[1..], f))
  }

  /** Every kept position is a position of `xs` that `f` maps to `Some`, and
      the positions increase. */
  lemma {:induction false} KeptSound<A, B>(xs: seq<A>, f: A -> Option<B>)
    ensures forall k :: 0 <= k < |Kept(xs, f)| ==> Kept(xs, f)[k] < |xs| && f(xs[Kept(xs, f)[k]]).Some?
    ensures forall k, l :: 0 <= k < l < |Kept(xs, f)| ==> Kept(xs, f)[k] < Kept(xs, f)[l]
    decreases |xs|
  {
    if |xs| > 0 {
      var rest := Kept(xs[1..], f);
      KeptSound(xs[1..], f);
      ShiftKeepsImages(xs, f, rest);
    }
  }

  /** No position that `f` maps to `Some` is missed by `Kept`; `k` is where
      it appears. */
  lemma {:induction false} KeptComplete<A, B>(xs: seq<A>, f: A -> Option<B>, j: nat) returns (k: nat)
    requires j < |xs| && f(xs[j]).Some?
    ensures k < |Kept(xs, f)| && Kept(xs, f)[k] == j
    decreases |xs|
  {
    var rest := Kept(xs[1..], f);
    var h := if f(xs[0]).Some? then 1 else 0;
    assert |Kept(xs, f)| == h + |rest|;
    if j == 0 {
      k := 0;
    } else {
      assert xs[1..][j - 1] == xs[j];
      var k' := KeptComplete(xs[1..], f, j - 1);
      k := h + k';
      assert Kept(xs, f)[k] == Shift(rest)[k'];
    }
  }

  /** Every position moved one step right. */
  function Shift(s: seq<nat>): (r: seq<nat>)
    ensures |r| == |s|
    ensures forall k :: 0 <= k < |s| ==> r[k] == s[k] + 1
  {
    seq(|s|, k requires 0 <= k < |s| => s[k] + 1)
  }

  /** Positions kept in the tail, moved one step right, are kept positions
      of the whole sequence. */
  lemma ShiftKeepsImages<A, B>(xs: seq<A>, f: A -> Option<B>, rest: seq<nat>)
    requires |xs| > 0
    requires forall k :: 0 <= k < |rest| ==> rest[k] < |xs[1..]| && f(xs[1..][rest[k]]).Some?
    ensures forall k :: 0 <= k < |rest| ==> Shift(rest)[k] < |xs| && f(xs[Shift(rest)[k]]).Some?
  {
    forall k | 0 <= k < |rest|
      ensures Shift(rest)[k] < |xs| && f(xs[Shift(rest)[k]]).Some?
    {
      assert xs[Shift(rest)[k]] == xs[1..][rest[k]];
    }
  }

  /** The k-th collected element is the image of the k-th kept position: the
      result is exactly the `Some` payloads, in source order, with nothing
      added or reordered. */
  lemma {:induction false} FilterMapIsKept<A, B>(xs: seq<A>, f: A -> Option<B>)
    ensures |FilterMap(xs, f)| == |Kept(xs, f)|
    ensures forall k :: 0 <= k < |FilterMap(xs, f)| ==>
      Kept(xs, f)[k] < |xs| && f(xs[Kept(xs, f)[k]]) == Some(FilterMap(xs, f)[k])
    decreases |xs|
  {
    if |xs| > 0 {
      FilterMapIsKept(xs[1..], f);
      var r, idx := FilterMap(xs, f), Kept(xs, f);
      var r', idx' := FilterMap(xs[1..], f), Kept(xs[1..], f);
      var h := if f(xs[0]).Some? then 1 else 0;
      assert |r| == h + |r'| && |idx| == h + |idx'|;
      forall k | 0 <= k < |r|
        ensures idx[k] < |xs| && f(xs[idx[k]]) == Some(r[k])
      {
        if k >= h {
          assert r[k] == r'[k - h];
          assert idx[k] == idx'[k - h] + 1;
          assert xs[idx[k]] == xs[1..][idx'[k - h]];
        }
      }
    }
  }

  /** When `f` never answers `None`, nothing is dropped: one output per input,
      position for position. */
  lemma {:induction false} FilterMapTotal<A, B>(xs: seq<A>, f: A -> Option<B>)
    requires forall j :: 0 <= j < |xs| ==> f(xs[j]).Some?
    ensures |FilterMap(xs, f)| == |xs|
    ensures forall k :: 0 <= k < |xs| ==> FilterMap(xs, f)[k] == f(xs[k]).value
    decreases |xs|
  {
    if |xs| > 0 {
      assert forall j :: 0 <= j < |xs[1..]| ==> xs[1..][j] == xs[j + 1];
      FilterMapTotal(xs[1..], f);
      var r := FilterMap(xs, f);
      assert r == [f(xs[0]).value] + FilterMap(xs[1..], f);
    }
  }
}
