/** A capacity-bounded FIFO window over a plain list: append the newest item
    at the tail, then evict the head once if the list has grown past its
    capacity. The agent keeps its recent images and its recent decision logs
    this way (agent.py, `run_agent`). */
module Window {

  /** The `k` most recent elements of `s`, oldest first (all of `s` when it
      holds no more than `k`). This is the reference the window is proved
      against. */
  function LastK<T>(s: seq<T>, k: nat): (r: seq<T>)
    ensures |r| == if |s| <= k then |s| else k
  {
    if |s| <= k then s else s[|s| - k..]
  }

  /** The `i`th element of the window is the matching element of the
      history's tail. */
  lemma LastKAt<T>(s: seq<T>, k: nat, i: int)
    requires 0 <= i < |LastK(s, k)|
    ensures LastK(s, k)[i] == s[|s| - |LastK(s, k)| + i]
  {
  }

  /** One step of the window: `list.append(x)` followed by
      `if len(list) > cap: list.pop(0)`. */
  function Push<T>(w: seq<T>, x: T, cap: nat): (r: seq<T>)
    ensures |w| <= cap ==> |r| <= cap
    ensures cap > 0 ==> r != [] && r[|r| - 1] == x
  {
    var grown := w + [x];
    if |grown| > cap then grown[1..] else grown
  }

  /** The window after pushing every element of `xs` in order. */
  function PushAll<T>(w: seq<T>, xs: seq<T>, cap: nat): (r: seq<T>)
    ensures |w| <= cap ==> |r| <= cap
    decreases |xs|
  {
    if xs == [] then w else PushAll(Push(w, xs[0], cap), xs[1..], cap)
  }

  /** A full-enough window stays within its capacity; the new element is
      always the last one, and the rest is the old window with at most its
      single oldest element removed, order preserved. */
  lemma PushKeepsBound<T>(w: seq<T>, x: T, cap: nat)
    requires |w| <= cap
    ensures |Push(w, x, cap)| <= cap
    ensures |Push(w, x, cap)| == if |w| < cap then |w| + 1 else cap
    ensures cap > 0 ==> Push(w, x, cap) == (if |w| < cap then w else w[1..]) + [x]
    ensures cap == 0 ==> Push(w, x, cap) == []
  {
  }

  /** Whatever the window held, a push drops at most its oldest element. */
  lemma PushDropsAtMostOldest<T>(w: seq<T>, x: T, cap: nat)
    ensures var r := Push(w, x, cap);
            r == w + [x] || (|w| > 0 && r == w[1..] + [x]) || (w == [] && r == [])
  {
    if |w + [x]| > cap && w != [] {
      assert (w + [x])[1..] == w[1..] + [x];
    }
  }

  /** Pushing onto the last `k` of a history gives the last `k` of the
      history extended by the new element: the window is always exactly the
      `k` most recent items in insertion order. */
  lemma PushLastK<T>(s: seq<T>, x: T, k: nat)
    ensures Push(LastK(s, k), x, k) == LastK(s + [x], k)
  {
    var w := LastK(s, k);
    var r := Push(w, x, k);
    var e := LastK(s + [x], k);
    assert |r| == |e|;
    forall i | 0 <= i < |r|
      ensures r[i] == e[i]
    {
      LastKAt(s + [x], k, i);
      if i < |r| - 1 {
        LastKAt(s, k, if |w + [x]| > k then i + 1 else i);
      }
      if i == |r| - 1 {
        assert r[i] == x;
      } else {
        if |w + [x]| > k {
          assert r[i] == (w + [x])[i + 1];
        } else {
          assert r[i] == (w + [x])[i];
        }
      }
    }
  }

  /** Any run of pushes onto a window seeded with `LastK(s, k)` ends as the
      last `k` items of `s` followed by everything pushed. */
  lemma {:induction false} PushAllLastK<T>(s: seq<T>, xs: seq<T>, k: nat)
    ensures PushAll(LastK(s, k), xs, k) == LastK(s + xs, k)
    decreases |xs|
  {
    if xs == [] {
      assert s + xs == s;
    } else {
      var s' := s + [xs[0]];
      calc {
        PushAll(LastK(s, k), xs, k);
        PushAll(Push(LastK(s, k), xs[0], k), xs[1..], k);
        { PushLastK(s, xs[0], k); }
        PushAll(LastK(s', k), xs[1..], k);
        { PushAllLastK(s', xs[1..], k); }
        LastK(s' + xs[1..], k);
        { assert s' + xs[1..] == s + xs; }
        LastK(s + xs, k);
      }
    }
  }
}
