/** Bounded first-in-first-out histories: append the newest entry, and when
    the list then holds more than its capacity, drop the oldest one. The
    controller keeps its monitor samples and its decisions this way (capacity
    1000); the native core keeps its outcome memory this way (capacity 128). */
module Fifo {

  /** Append `x`, then evict the first entry if the list is over `cap`. */
  function PushBounded<T>(h: seq<T>, x: T, cap: nat): (r: seq<T>)
    requires cap > 0
    ensures |r| > 0 && r[|r| - 1] == x
    ensures |r| == if |h| < cap then |h| + 1 else |h|
    ensures |h| <= cap ==> |r| <= cap
    // the entries kept from h are its newest ones, in their old order
    ensures r[..|r| - 1] == h[|h| + 1 - |r|..]
  {
    var appended := h + [x];
    assert appended[..|h|] == h;
    if |appended| > cap then
      assert appended[1..][..|h| - 1] == h[1..];
      appended[1..]
    else appended
  }

  /** The newest `cap` entries of `s`, in order. */
  function Newest<T>(s: seq<T>, cap: nat): (r: seq<T>)
    ensures |r| == if |s| <= cap then |s| else cap
  {
    if |s| <= cap then s else s[|s| - cap..]
  }

  /** Push every entry of `xs`, oldest first. */
  function PushAll<T>(h: seq<T>, xs: seq<T>, cap: nat): seq<T>
    requires cap > 0
    decreases |xs|
  {
    if xs == [] then h else PushAll(PushBounded(h, xs[0], cap), xs[1..], cap)
  }

  /** One push onto a history within its capacity keeps the newest `cap`. */
  lemma PushIsNewest<T>(h: seq<T>, x: T, cap: nat)
    requires cap > 0 && |h| <= cap
    ensures PushBounded(h, x, cap) == Newest(h + [x], cap)
  {
  }

  /** Trimming before appending loses nothing that trimming afterwards keeps. */
  lemma {:induction false} NewestOfNewest<T>(s: seq<T>, t: seq<T>, cap: nat)
    ensures Newest(Newest(s, cap) + t, cap) == Newest(s + t, cap)
  {
    if |s| > cap {
      var a := Newest(s, cap) + t;
      var b := s + t;
      var k := |s| - cap;
      assert |a| == |b| - k;
      forall i | 0 <= i < |a| ensures a[i] == b[k + i] {
        if i < cap {
          assert a[i] == s[k + i];
        } else {
          assert a[i] == t[i - cap];
        }
      }
      assert a == b[k..];
      if |a| <= cap {
        assert t == [] && b == s;
      }
    }
  }

  /** Starting within capacity, after pushing any run of entries exactly the
      newest `cap` of everything pushed so far remain, in insertion order. */
  lemma {:induction false} PushAllKeepsNewest<T>(h: seq<T>, xs: seq<T>, cap: nat)
    requires cap > 0 && |h| <= cap
    ensures PushAll(h, xs, cap) == Newest(h + xs, cap)
    decreases |xs|
  {
    if xs != [] {
      var x, rest := xs[0], xs[1..];
      assert h + xs == (h + [x]) + rest by {
        assert xs == [x] + rest;
      }
      PushIsNewest(h, x, cap);
      PushAllKeepsNewest(PushBounded(h, x, cap), rest, cap);
      NewestOfNewest(h + [x], rest, cap);
    }
  }
}
