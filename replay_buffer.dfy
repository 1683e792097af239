/** The bounded FIFO replay memory of the DQN agent: adding past capacity evicts the oldest
    record, and sampling draws indices uniformly with replacement. */
module ReplayMemory {
  import opened Common
  import opened Types

  const DefaultCapacity: nat := 10000

  /** `Array.prototype.shift` as an update: drop the first element, if any. */
  function Shift<T>(s: seq<T>): seq<T> {
    if s == [] then [] else s[1..]
  }

  /** The contents after one `add` to a buffer holding `buf` with the given capacity. */
  function Added(buf: seq<Experience>, capacity: nat, exp: Experience): (r: seq<Experience>)
    ensures |r| >= 1 && r[|r| - 1] == exp
    ensures |r| == if |buf| < capacity then |buf| + 1 else Max(|buf|, 1)
    ensures r[..|r| - 1] == buf[|buf| - (|r| - 1)..]
  {
    (if |buf| >= capacity then Shift(buf) else buf) + [exp]
  }

  /** The largest size a buffer of this capacity can reach: a capacity of 0 still keeps the
      record just added. */
  function Bound(capacity: nat): nat {
    Max(capacity, 1)
  }

  /** Adding never takes the buffer past its bound. */
  lemma AddedWithinBound(buf: seq<Experience>, capacity: nat, exp: Experience)
    requires |buf| <= Bound(capacity)
    ensures |Added(buf, capacity, exp)| <= Bound(capacity)
  {
  }

  /** After `dispose` the capacity is 0, and every add leaves exactly the new record. */
  lemma AddedAtZeroCapacity(buf: seq<Experience>, exp: Experience)
    requires |buf| <= Bound(0)
    ensures Added(buf, 0, exp) == [exp]
  {
  }

  /** The contents after adding every record of `items`, first to last. */
  function AddAll(buf: seq<Experience>, capacity: nat, items: seq<Experience>): seq<Experience>
    decreases |items|
  {
    if items == [] then buf else AddAll(Added(buf, capacity, items[0]), capacity, items[1..])
  }

  /** FIFO eviction: however many records arrive, the buffer holds the most recent
      `capacity` of everything it was offered, oldest first. */
  lemma {:induction false} AddAllKeepsMostRecent(buf: seq<Experience>, capacity: nat, items: seq<Experience>)
    requires capacity >= 1 && |buf| <= capacity
    ensures AddAll(buf, capacity, items) == LastN(buf + items, capacity)
    decreases |items|
  {
    if items == [] {
      assert buf + items == buf;
    } else {
      var x, rest := items[0], items[1..];
      var next := Added(buf, capacity, x);
      assert |next| <= capacity;
      AddedIsWindow(buf, capacity, x);
      AddAllKeepsMostRecent(next, capacity, rest);
      WindowThenRest(buf, x, rest, capacity);
      HeadTail(items);
      assert AddAll(buf, capacity, items) == AddAll(next, capacity, rest);
    }
  }

  /** Windowing after one more record and then after the rest is windowing once at the end. */
  lemma WindowThenRest(buf: seq<Experience>, x: Experience, rest: seq<Experience>, capacity: nat)
    ensures LastN(LastN(buf + [x], capacity) + rest, capacity) == LastN(buf + ([x] + rest), capacity)
  {
    LastNOfAppend(buf + [x], rest, capacity);
    assert buf + [x] + rest == buf + ([x] + rest);
  }

  /** One add below or at capacity keeps the last `capacity` records offered so far. */
  lemma AddedIsWindow(buf: seq<Experience>, capacity: nat, exp: Experience)
    requires capacity >= 1 && |buf| <= capacity
    ensures Added(buf, capacity, exp) == LastN(buf + [exp], capacity)
  {
    if |buf| == capacity {
      assert Shift(buf) + [exp] == (buf + [exp])[1..];
    }
  }

  /** Inserting `capacity + k` records into an empty buffer leaves exactly the last
      `capacity` of them: the first `k` are no longer there. */
  lemma {:induction false} FifoEviction(capacity: nat, items: seq<Experience>, k: nat)
    requires capacity >= 1 && |items| == capacity + k
    ensures AddAll([], capacity, items) == items[k..]
    ensures |AddAll([], capacity, items)| == capacity
  {
    AddAllFromEmpty(capacity, items);
    LastNOfLonger(items, capacity, k);
  }

  lemma {:induction false} AddAllFromEmpty(capacity: nat, items: seq<Experience>)
    requires capacity >= 1
    ensures AddAll([], capacity, items) == LastN(items, capacity)
  {
    var empty: seq<Experience> := [];
    assert LastN(empty + items, capacity) == LastN(items, capacity) by {
      assert empty + items == items;
    }
    AddAllKeepsMostRecent(empty, capacity, items);
  }

  lemma LastNOfLonger(items: seq<Experience>, capacity: nat, k: nat)
    requires |items| == capacity + k
    ensures LastN(items, capacity) == items[k..]
  {
  }

  /** Random draws supplied for `count` samples: each one a value of `Math.random()`. */
  predicate ValidDraws(draws: seq<real>, count: nat) {
    |draws| >= count && forall i :: 0 <= i < |draws| ==> 0.0 <= draws[i] < 1.0
  }

  /** `Math.floor(r * len)` for a draw `r` in [0, 1): always an index of the buffer. */
  function DrawIndex(r: real, len: nat): (idx: int)
    requires 0.0 <= r < 1.0 && len > 0
    ensures 0 <= idx < len
  {
    var l := len as real;
    var x := r * l;
    ScaledDrawInRange(r, l);
    FloorBelow(x, len);
    x.Floor
  }

  lemma FloorBelow(x: real, n: nat)
    requires 0.0 <= x < n as real
    ensures 0 <= x.Floor < n
  {
  }

  lemma ScaledDrawInRange(r: real, l: real)
    requires 0.0 <= r < 1.0 && l >= 1.0
    ensures 0.0 <= r * l < l
  {
    assert l - r * l == (1.0 - r) * l;
    assert (1.0 - r) * l > 0.0;
  }

  /** The batch `sample(n)` returns for the given draws: one record per draw, taken at the
      drawn index, for `min(n, size)` draws. */
  function SampleOf(buf: seq<Experience>, n: nat, draws: seq<real>): (batch: seq<Experience>)
    requires ValidDraws(draws, Min(n, |buf|))
    ensures |batch| == Min(n, |buf|)
    ensures forall i :: 0 <= i < |batch| ==> batch[i] in buf
  {
    seq(Min(n, |buf|), i requires 0 <= i < Min(n, |buf|) => buf[DrawIndex(draws[i], |buf|)])
  }

  /** With replacement: a non-empty buffer smaller than the request still yields a full
      batch, and the same draw twice yields the same record twice. */
  lemma SampleWithReplacement(buf: seq<Experience>, n: nat, draws: seq<real>, i: nat, j: nat)
    requires 0 < |buf| <= n && ValidDraws(draws, n)
    requires i < j < |buf| && draws[i] == draws[j]
    ensures |SampleOf(buf, n, draws)| == |buf|
    ensures SampleOf(buf, n, draws)[i] == SampleOf(buf, n, draws)[j]
  {
  }

  /** Sampling draws indices independently: whenever a batch has two places, some draws put
      the buffer's first record in both, even when no record of the buffer repeats. */
  lemma SampleCanRepeat(buf: seq<Experience>, n: nat)
    requires Min(n, |buf|) >= 2
    ensures exists draws :: ValidDraws(draws, Min(n, |buf|))
              && SampleOf(buf, n, draws)[0] == buf[0] && SampleOf(buf, n, draws)[1] == buf[0]
  {
    var draws := seq(Min(n, |buf|), i => 0.0);
    assert ValidDraws(draws, Min(n, |buf|));
    assert DrawIndex(0.0, |buf|) == 0;
  }

  class ReplayBuffer {
    var buffer: seq<Experience>
    var capacity: nat

    ghost predicate Valid()
      reads this
    {
      |buffer| <= Bound(capacity)
    }

    constructor (capacity: nat := DefaultCapacity)
      ensures Valid()
      ensures this.capacity == capacity && buffer == []
    {
      this.capacity := capacity;
      buffer := [];
    }

    /** The number of records held. */
    function Size(): nat
      reads this
    {
      |buffer|
    }

    method Add(exp: Experience)
      requires Valid()
      modifies this
      ensures Valid()
      ensures capacity == old(capacity)
      ensures buffer == Added(old(buffer), capacity, exp)
      ensures old(|buffer|) < capacity ==> buffer == old(buffer) + [exp]
      ensures old(|buffer|) >= capacity ==> buffer == Shift(old(buffer)) + [exp]
    {
      if |buffer| >= capacity {
        buffer := Shift(buffer);
      }
      buffer := buffer + [exp];
    }

    method Sample(batchSize: nat, draws: seq<real>) returns (sampled: seq<Experience>)
      requires ValidDraws(draws, Min(batchSize, |buffer|))
      ensures sampled == SampleOf(buffer, batchSize, draws)
      ensures |sampled| == Min(batchSize, |buffer|)
      ensures forall i :: 0 <= i < |sampled| ==> sampled[i] == buffer[DrawIndex(draws[i], |buffer|)]
    {
      sampled := [];
      var bufferLength := |buffer|;
      var i := 0;
      while i < Min(batchSize, bufferLength)
        invariant 0 <= i <= Min(batchSize, bufferLength)
        invariant |sampled| == i
        invariant forall j :: 0 <= j < i ==> sampled[j] == buffer[DrawIndex(draws[j], bufferLength)]
      {
        var idx := DrawIndex(draws[i], bufferLength);
        sampled := sampled + [buffer[idx]];
        i := i + 1;
      }
    }
  }
}
