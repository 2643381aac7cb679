/** The capture side of the realtime transcriber: every audio frame the
    device delivers is padded or cut to one fixed-size chunk, and chunks wait
    for the sender in a bounded queue that drops its oldest chunk rather than
    block the audio callback. */
module Capture {
  import opened PyText

  /** One signed 16-bit PCM sample (`np.int16`). */
  newtype Sample = x: int | -32768 <= x < 32768

  type Chunk = seq<Sample>

  /** The framing step of `_audio_callback`: a frame of any length becomes a
      chunk of exactly `chunkSamples` samples that starts with the frame and
      is zero-filled after it. `frames` is the length the device reports. */
  method PadFrame(frame: seq<Sample>, frames: nat, chunkSamples: nat) returns (chunk: Chunk)
    requires |frame| == frames
    ensures |chunk| == chunkSamples
    ensures forall i :: 0 <= i < chunkSamples && i < |frame| ==> chunk[i] == frame[i]
    ensures forall i :: |frame| <= i < chunkSamples ==> chunk[i] == 0
  {
    if frames != chunkSamples {
      var padded := new Sample[chunkSamples](_ => 0);
      var keep := if |frame| < chunkSamples then |frame| else chunkSamples;
      var i := 0;
      while i < keep
        invariant 0 <= i <= keep
        invariant forall k :: 0 <= k < i ==> padded[k] == frame[k]
        invariant forall k :: keep <= k < chunkSamples ==> padded[k] == 0
      {
        padded[i] := frame[i];
        i := i + 1;
      }
      chunk := padded[..];
    } else {
      chunk := frame;
    }
  }

  /** Python's `queue.Queue(maxsize)`: full once it holds `maxsize` items;
      a `maxsize` of zero or less means it is never full. */
  predicate IsFull<T>(items: seq<T>, maxsize: int)
    ensures maxsize <= 0 ==> !IsFull(items, maxsize)
    ensures IsFull(items, maxsize) ==> items != []
  {
    0 < maxsize <= |items|
  }

  /** The queue after the callback's enqueue: the chunk is appended, and when
      the queue was full its oldest entry is dropped first. */
  function DropOldestPut<T>(items: seq<T>, maxsize: int, x: T): (r: seq<T>)
    ensures |r| == if IsFull(items, maxsize) then |items| else |items| + 1
    ensures r == (items + [x])[|items| + 1 - |r|..]
  {
    if IsFull(items, maxsize) then
      assert items[1..] + [x] == (items + [x])[1..];
      items[1..] + [x]
    else
      assert items + [x] == (items + [x])[0..];
      items + [x]
  }

  /** The queue after the callback has enqueued each of `xs` in turn. */
  function DropOldestPutAll<T>(items: seq<T>, maxsize: int, xs: seq<T>): (r: seq<T>)
    ensures 0 < maxsize && |items| <= maxsize ==> |r| <= maxsize
    ensures maxsize <= 0 ==> r == items + xs
    decreases |xs|
  {
    if xs == [] then
      assert items + xs == items;
      items
    else
      assert items + xs == (items + [xs[0]]) + xs[1..];
      DropOldestPutAll(DropOldestPut(items, maxsize, xs[0]), maxsize, xs[1..])
  }

  /** A drop-oldest enqueue never overfills the queue, always ends with the
      new chunk, loses only the oldest entry, and loses it only when the queue was full. */
  lemma DropOldestPutKeepsNewest<T>(items: seq<T>, maxsize: int, x: T)
    requires maxsize <= 0 || |items| <= maxsize
    ensures var r := DropOldestPut(items, maxsize, x);
            && (maxsize > 0 ==> |r| <= maxsize)
            && r[|r| - 1] == x
            && r == (items + [x])[|items| + 1 - |r|..]
            && (|r| == |items| + 1 <==> !IsFull(items, maxsize))
            && (IsFull(items, maxsize) ==> r == items[1..] + [x])
  {
    var r := DropOldestPut(items, maxsize, x);
    if IsFull(items, maxsize) {
      assert r == (items + [x])[1..];
    } else {
      assert r == (items + [x])[0..];
    }
  }

  /** The newest `maxsize` entries of `all`, oldest first (all of them when
      there are no more than `maxsize`). */
  function Newest<T>(all: seq<T>, maxsize: nat): (r: seq<T>)
    ensures |r| == if |all| <= maxsize then |all| else maxsize
    ensures r == all[|all| - |r|..]
  {
    if |all| <= maxsize then all else all[|all| - maxsize..]
  }

  /** After any run of enqueues the bounded queue holds exactly the newest
      `maxsize` chunks of everything it held and was given, oldest first. */
  lemma {:induction false} DropOldestPutAllKeepsNewest<T>(items: seq<T>, maxsize: nat, xs: seq<T>)
    requires 0 < maxsize && |items| <= maxsize
    ensures DropOldestPutAll(items, maxsize, xs) == Newest(items + xs, maxsize)
    decreases |xs|
  {
    if xs == [] {
      assert items + xs == items;
    } else {
      var next := DropOldestPut(items, maxsize, xs[0]);
      DropOldestPutAllKeepsNewest(next, maxsize, xs[1..]);
      var d := |items| + 1 - |next|;
      SplitFirst(items, xs);
      DropThenAppend(items + [xs[0]], xs[1..], d);
      assert next + xs[1..] == (items + xs)[d..];
      NewestWindow(items + xs, d, maxsize);
    }
  }

  /** Dropping the first `d` of `all` first, where `d` is 1 only when `all`
      is longer than `maxsize`, leaves the newest `maxsize` the same. */
  lemma NewestWindow<T>(all: seq<T>, d: nat, maxsize: nat)
    requires 0 < maxsize && d <= 1 && d <= |all| && (d == 1 ==> |all| > maxsize)
    ensures Newest(all[d..], maxsize) == Newest(all, maxsize)
  {
    if |all| - d > maxsize {
      assert all[d..][|all| - d - maxsize..] == all[|all| - maxsize..];
    }
  }

  /** Peeling the first of `xs` off onto `items`. */
  lemma SplitFirst<T>(items: seq<T>, xs: seq<T>)
    requires xs != []
    ensures items + xs == (items + [xs[0]]) + xs[1..]
  {
    assert xs == [xs[0]] + xs[1..];
  }

  /** Dropping a prefix commutes with appending at the other end. */
  lemma DropThenAppend<T>(a: seq<T>, b: seq<T>, d: nat)
    requires d <= |a|
    ensures a[d..] + b == (a + b)[d..]
  {
  }

  /** Capacity 3, chunks A, B, C, D enqueued in order: A is dropped. */
  lemma OverflowExample()
    ensures DropOldestPutAll([], 3, ['A', 'B', 'C', 'D']) == ['B', 'C', 'D']
  {
    DropOldestPutAllKeepsNewest([], 3, ['A', 'B', 'C', 'D']);
  }

  /** The chunk queue between the audio callback and the sender loop. */
  class ChunkQueue {
    var items: seq<Chunk>
    const maxsize: int

    ghost predicate Valid()
      reads this
    {
      maxsize <= 0 || |items| <= maxsize
    }

    constructor (maxsize: int)
      ensures Valid() && items == [] && this.maxsize == maxsize
    {
      this.maxsize := maxsize;
      items := [];
    }

    /** `put_nowait`: appends, or reports `full` (Python raises `queue.Full`) and changes nothing. */
    method PutNowait(x: Chunk) returns (full: bool)
      requires Valid()
      modifies this
      ensures Valid()
      ensures full == IsFull(old(items), maxsize)
      ensures items == if full then old(items) else old(items) + [x]
    {
      full := IsFull(items, maxsize);
      if !full {
        items := items + [x];
      }
    }

    /** `get_nowait`: removes and returns the oldest chunk, or None (Python
        raises `queue.Empty`) when there is none. */
    method GetNowait() returns (r: Option<Chunk>)
      requires Valid()
      modifies this
      ensures Valid()
      ensures r.None? <==> old(items) == []
      ensures r.Some? ==> r.value == old(items)[0] && items == old(items)[1..]
      ensures r.None? ==> items == old(items)
    {
      if items == [] {
        r := None;
      } else {
        r := Some(items[0]);
        items := items[1..];
      }
    }

    /** `empty()`. */
    method IsEmpty() returns (e: bool)
      ensures e <==> items == []
    {
      e := items == [];
    }
  }
}
