/** The experience-replay memory of backend/rl/replayBuffer.js: a bounded first-in-first-out list
    of transitions, sampled uniformly with replacement. */
module Replay {

  function Capacity(maxSize: int): nat
  {
    if maxSize < 0 then 0 else maxSize
  }

  /** The length of a buffer of length `n` after `k` more adds: it grows by one per add until it
      reaches the capacity. */
  function SizeAfter(n: nat, k: nat, maxSize: int): nat
  {
    if n + k <= Capacity(maxSize) then n + k else Capacity(maxSize)
  }

  /** The buffer after one `add`: push at the back, then drop the front once if over `maxSize`. */
  function AddStep<T>(buf: seq<T>, t: T, maxSize: int): seq<T>
  {
    var pushed := buf + [t];
    if |pushed| > maxSize then pushed[1..] else pushed
  }

  /** The buffer after adding every element of `ts`, in order, to `buf`. */
  function AddAll<T>(buf: seq<T>, ts: seq<T>, maxSize: int): seq<T>
  {
    if ts == [] then buf else AddStep(AddAll(buf, ts[..|ts| - 1], maxSize), ts[|ts| - 1], maxSize)
  }

  /** The newest `min(|xs|, capacity)` elements of `xs`, oldest first. */
  function Window<T>(xs: seq<T>, maxSize: int): (w: seq<T>)
    ensures |w| == if |xs| <= Capacity(maxSize) then |xs| else Capacity(maxSize)
    ensures forall i :: 0 <= i < |w| ==> w[i] == xs[|xs| - |w| + i]
  {
    if |xs| <= Capacity(maxSize) then xs else xs[|xs| - Capacity(maxSize)..]
  }

  /** One add keeps the buffer within its bound and evicts nothing but the front element: the
      result is `buf + [t]` or that list without its oldest element. */
  lemma AddStepEvictsFront<T>(buf: seq<T>, t: T, maxSize: int)
    requires |buf| <= Capacity(maxSize)
    ensures |AddStep(buf, t, maxSize)| <= Capacity(maxSize)
    ensures |AddStep(buf, t, maxSize)| == SizeAfter(|buf|, 1, maxSize)
    ensures AddStep(buf, t, maxSize) == buf + [t] || AddStep(buf, t, maxSize) == (buf + [t])[1..]
    ensures Capacity(maxSize) == 0 ==> AddStep(buf, t, maxSize) == []
    ensures Capacity(maxSize) > 0 ==> |AddStep(buf, t, maxSize)| > 0 && AddStep(buf, t, maxSize)[|AddStep(buf, t, maxSize)| - 1] == t
  {
  }

  /** Adding to the window of a history gives the window of the longer history. */
  lemma AddStepKeepsWindow<T>(xs: seq<T>, t: T, maxSize: int)
    ensures AddStep(Window(xs, maxSize), t, maxSize) == Window(xs + [t], maxSize)
  {
    var w := Window(xs, maxSize);
    var cap := Capacity(maxSize);
    var ys := xs + [t];
    if |xs| < cap {
      assert w == xs;
    } else {
      var r := AddStep(w, t, maxSize);
      assert |r| == cap;
      forall i | 0 <= i < cap ensures r[i] == Window(ys, maxSize)[i] {
        if cap > 0 && i == cap - 1 {
          assert r[i] == t;
        }
      }
    }
  }

  /** FIFO: from an empty buffer, any sequence of adds leaves exactly the newest
      `min(n, maxSize)` transitions, in insertion order. */
  lemma {:induction false} AddAllFromEmptyIsWindow<T>(ts: seq<T>, maxSize: int)
    ensures AddAll([], ts, maxSize) == Window(ts, maxSize)
  {
    if ts != [] {
      var init := ts[..|ts| - 1];
      AddAllFromEmptyIsWindow(init, maxSize);
      AddStepKeepsWindow(init, ts[|ts| - 1], maxSize);
      assert init + [ts[|ts| - 1]] == ts;
    }
  }

  class ReplayBuffer<T> {
    const maxSize: int
    var buffer: seq<T>
    /** Every transition ever added, oldest first. */
    ghost var added: seq<T>

    ghost predicate Valid()
      reads this
    {
      buffer == Window(added, maxSize)
    }

    constructor (maxSize: int)
      ensures this.maxSize == maxSize && buffer == [] && added == [] && Valid()
    {
      this.maxSize := maxSize;
      buffer := [];
      added := [];
    }

    method Add(transition: T)
      requires Valid()
      modifies this
      ensures Valid()
      ensures added == old(added) + [transition]
      ensures buffer == AddStep(old(buffer), transition, maxSize)
    {
      AddStepKeepsWindow(added, transition, maxSize);
      buffer := buffer + [transition];
      if |buffer| > maxSize {
        buffer := buffer[1..];
      }
      added := added + [transition];
    }

    /** `sample(batchSize)` with the `Math.random()` draws given: draw `d` picks index
        `floor(d * size)`, each draw independently. */
    method Sample(draws: seq<real>) returns (batch: seq<T>)
      requires |buffer| > 0
      requires forall i :: 0 <= i < |draws| ==> 0.0 <= draws[i] < 1.0
      ensures |batch| == |draws|
      ensures forall i :: 0 <= i < |draws| ==> batch[i] == buffer[SampleIndex(draws[i], |buffer|)]
      ensures forall i :: 0 <= i < |batch| ==> batch[i] in buffer
    {
      var len := |buffer|;
      batch := [];
      for i := 0 to |draws|
        invariant |batch| == i
        invariant forall j :: 0 <= j < i ==> batch[j] == buffer[SampleIndex(draws[j], len)]
      {
        batch := batch + [buffer[SampleIndex(draws[i], len)]];
      }
    }

    method Size() returns (n: nat)
      ensures n == |buffer|
      ensures Valid() ==> n <= Capacity(maxSize)
    {
      n := |buffer|;
    }
  }

  /** Everything the buffer holds was added at some point. */
  lemma WindowElementsAdded<T>(xs: seq<T>, maxSize: int, x: T)
    requires x in Window(xs, maxSize)
    ensures x in xs
  {
    var k := |xs| - |Window(xs, maxSize)|;
    assert Window(xs, maxSize) == xs[k..];
    var i :| k <= i < |xs| && xs[i] == x;
  }

  /** `Math.floor(r * len)`: the index a draw `r` in [0, 1) picks in a list of length `len`. */
  function SampleIndex(r: real, len: nat): (k: int)
    requires 0.0 <= r < 1.0 && len > 0
    ensures 0 <= k < len
    ensures k as real <= r * len as real < k as real + 1.0
  {
    FloorIndexInRange(r, len);
    (r * len as real).Floor
  }

  /** `Math.floor(r * len)` with `0 <= r < 1` is a valid index into a list of length `len`. */
  lemma FloorIndexInRange(r: real, len: nat)
    requires 0.0 <= r < 1.0 && len > 0
    ensures 0 <= (r * len as real).Floor < len
  {
    assert r * len as real < len as real by {
      assert len as real - r * len as real == (1.0 - r) * len as real;
    }
  }
}
