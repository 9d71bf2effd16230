/** The recent-searches list: a first-in first-out queue of capacity five
    that evicts at most one entry per insertion. */
module SearchHistory {

  /** The number of entries an insertion trims the list back to. */
  const Capacity: nat := 5

  /** Adds `x` to the back of `h`, then shifts one entry off the front when
      the grown list is longer than the capacity. Only one entry is ever
      evicted, so a list already longer than the capacity stays that long. */
  function Append<T>(h: seq<T>, x: T): (r: seq<T>)
    ensures |r| > 0 && r[|r| - 1] == x
    ensures |h| < Capacity ==> r[..|r| - 1] == h
    ensures |h| >= Capacity ==> r[..|r| - 1] == h[1..]
    ensures |h| <= Capacity ==> |r| <= Capacity
    ensures |h| > Capacity ==> |r| == |h|
  {
    var grown := h + [x];
    assert grown[..|grown| - 1] == h;
    if |grown| > Capacity then
      assert grown[1..][..|grown| - 2] == h[1..];
      grown[1..]
    else
      grown
  }

  /** The list after inserting every element of `xs`, in order. */
  function AppendAll<T>(h: seq<T>, xs: seq<T>): seq<T>
    decreases |xs|
  {
    if xs == [] then h else AppendAll(Append(h, xs[0]), xs[1..])
  }

  /** Reference definition: the last `n` elements of `xs` (all of them when
      there are fewer), in their original order. */
  function Newest<T>(xs: seq<T>, n: nat): seq<T>
  {
    if |xs| <= n then xs else xs[|xs| - n..]
  }

  /** Taking the newest `n` twice is taking them once. */
  lemma NewestOfNewest<T>(a: seq<T>, b: seq<T>, n: nat)
    ensures Newest(Newest(a, n) + b, n) == Newest(a + b, n)
  {
    if |a| > n {
      var k := |a| - n;
      assert Newest(a, n) + b == (a + b)[k..];
    }
  }

  /** From a list within capacity, inserting `xs` keeps exactly the newest
      `Capacity` elements of the old list followed by `xs`. */
  lemma {:induction false} AppendAllKeepsNewest<T>(h: seq<T>, xs: seq<T>)
    requires |h| <= Capacity
    ensures AppendAll(h, xs) == Newest(h + xs, Capacity)
    decreases |xs|
  {
    if xs == [] {
      assert h + xs == h;
    } else {
      var h' := Append(h, xs[0]);
      assert h' == Newest(h + [xs[0]], Capacity);
      AppendAllKeepsNewest(h', xs[1..]);
      NewestOfNewest(h + [xs[0]], xs[1..], Capacity);
      assert h + [xs[0]] + xs[1..] == h + xs;
    }
  }

  /** Starting from an empty list, `n` insertions leave the last min(n, 5)
      inserted elements, oldest first. */
  lemma {:induction false} AppendAllFromEmpty<T>(xs: seq<T>)
    ensures |AppendAll([], xs)| == if |xs| < Capacity then |xs| else Capacity
    ensures AppendAll([], xs) == xs[|xs| - |AppendAll([], xs)|..]
  {
    AppendAllKeepsNewest([], xs);
    assert [] + xs == xs;
  }

  /** From a list at or above capacity, every insertion evicts exactly the
      oldest entry: the length never changes. */
  lemma {:induction false} AppendAllFromFull<T>(h: seq<T>, xs: seq<T>)
    requires |h| >= Capacity
    ensures AppendAll(h, xs) == (h + xs)[|xs|..]
    ensures |AppendAll(h, xs)| == |h|
    decreases |xs|
  {
    if xs == [] {
      assert h + xs == h;
    } else {
      var h' := Append(h, xs[0]);
      assert h' == (h + [xs[0]])[1..];
      AppendAllFromFull(h', xs[1..]);
      assert h' + xs[1..] == (h + xs)[1..];
    }
  }
}
