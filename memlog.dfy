/** The capture hooks and the buffered drain of src/memlog.cpp. Each thread
    owns a ThreadState (the struct MyTLS of include/mytls.hpp): the list of
    events it has captured and the size cached between the entry and the exit
    of malloc. `WriteEvents` moves the list through a fixed buffer of
    `BUF_LEN` records into the trace file; the writes themselves are kept as
    a ghost log of chunks. */
module MemLog {
  import opened Common
  import opened Events

  /** Records per write of `WriteEvents`. */
  const BUF_LEN: nat := 65536
  /** List length at which `ReadsMem` drains the list. */
  const MAX_SIZE: nat := 67108864
  /** `RAND_MAX` of the GNU C library, the largest value `rand_r` returns. */
  const RAND_MAX: int := 0x7fff_ffff
  /** Draws below this value drop a read or write. */
  const THRESHOLD: int := RAND_MAX / 10

  /** Consecutive chunks of exactly `n` elements, as many as `s` fills. */
  function Blocks<T>(s: seq<T>, n: nat): seq<seq<T>>
    requires n > 0
    decreases |s|
  {
    if |s| < n then [] else [s[..n]] + Blocks(s[n..], n)
  }

  /** The writes one drain of `s` makes: a full buffer each time the index
      wraps to 0, then one last write of what is left, which may be nothing. */
  function WriteLayout<T>(s: seq<T>, n: nat): seq<seq<T>>
    requires n > 0
  {
    var k := |s| - |s| % n;
    Blocks(s[..k], n) + [s[k..]]
  }

  lemma {:induction false} BlocksShape<T>(s: seq<T>, n: nat, m: nat)
    requires n > 0 && |s| == m * n
    ensures |Blocks(s, n)| == m
    ensures forall i :: 0 <= i < m ==> |Blocks(s, n)[i]| == n
    ensures Flatten(Blocks(s, n)) == s
    decreases m
  {
    if m == 0 {
      assert s == [];
    } else {
      assert |s[n..]| == (m - 1) * n;
      BlocksShape(s[n..], n, m - 1);
      var b := Blocks(s, n);
      assert b == [s[..n]] + Blocks(s[n..], n);
      assert b[1..] == Blocks(s[n..], n);
      assert s[..n] + s[n..] == s;
    }
  }

  lemma {:induction false} BlocksSnoc<T>(s: seq<T>, c: seq<T>, n: nat, m: nat)
    requires n > 0 && |s| == m * n && |c| == n
    ensures Blocks(s + c, n) == Blocks(s, n) + [c]
    decreases m
  {
    if m == 0 {
      assert s + c == c;
      assert c[n..] == [];
      assert c[..n] == c;
    } else {
      assert |s[n..]| == (m - 1) * n;
      BlocksSnoc(s[n..], c, n, m - 1);
      assert (s + c)[..n] == s[..n];
      assert (s + c)[n..] == s[n..] + c;
    }
  }

  /** The chunks of one drain, concatenated in order, are exactly the list
      that was drained. */
  lemma WriteLayoutFlatten<T>(s: seq<T>, n: nat)
    requires n > 0
    ensures Flatten(WriteLayout(s, n)) == s
  {
    var k := |s| - |s| % n;
    assert k == (|s| / n) * n;
    BlocksShape(s[..k], n, |s| / n);
    FlattenAppend(Blocks(s[..k], n), [s[k..]]);
    FlattenSingle(s[k..]);
    assert s[..k] + s[k..] == s;
  }

  /** One drain of `s` makes `|s| / n` writes of exactly `n` records and then
      exactly one more carrying `|s| % n`, even when that is zero. */
  lemma WriteLayoutCounts<T>(s: seq<T>, n: nat)
    requires n > 0
    ensures |WriteLayout(s, n)| == |s| / n + 1
    ensures forall i :: 0 <= i < |s| / n ==> |WriteLayout(s, n)[i]| == n
    ensures |WriteLayout(s, n)[|s| / n]| == |s| % n
  {
    var k := |s| - |s| % n;
    assert k == (|s| / n) * n;
    BlocksShape(s[..k], n, |s| / n);
  }

  /** Filling the buffer completes the next full chunk of the drained list. */
  lemma FullBuffer<T>(s: seq<T>, b: seq<T>, full: nat)
    requires |b| == BUF_LEN && (full + 1) * BUF_LEN <= |s|
    requires forall k :: 0 <= k < BUF_LEN ==> b[k] == s[full * BUF_LEN + k]
    ensures Blocks(s[..(full + 1) * BUF_LEN], BUF_LEN) == Blocks(s[..full * BUF_LEN], BUF_LEN) + [b]
  {
    assert s[..(full + 1) * BUF_LEN] == s[..full * BUF_LEN] + b;
    BlocksSnoc(s[..full * BUF_LEN], b, BUF_LEN, full);
  }

  /** When the list is exhausted, the log so far, the full chunks written
      during the drain and the buffer's filled prefix are the log plus the
      layout of the whole drain, which keeps every event in order. */
  lemma Drained<T>(w: seq<seq<T>>, s: seq<T>, b: seq<T>, full: nat, idx: nat)
    requires idx < BUF_LEN <= |b| && |s| == full * BUF_LEN + idx
    requires forall k :: 0 <= k < idx ==> b[k] == s[full * BUF_LEN + k]
    ensures w + Blocks(s[..full * BUF_LEN], BUF_LEN) + [b[..idx]] == w + WriteLayout(s, BUF_LEN)
    ensures Flatten(w + WriteLayout(s, BUF_LEN)) == Flatten(w) + s
  {
    assert |s| % BUF_LEN == idx;
    assert b[..idx] == s[full * BUF_LEN..];
    FlattenAppend(w, WriteLayout(s, BUF_LEN));
    WriteLayoutFlatten(s, BUF_LEN);
  }

  /** The state of one thread (MyTLS). The random seed is not modelled: each
      hook that samples receives the draw of `rand_r` as an argument. */
  class ThreadState {
    /** `_eventsList`, front first. */
    var events: seq<Event>
    /** `_cachedSize`: the size passed to the malloc now running. */
    var cachedSize: u64
    /** The chunks this thread has handed to write(2), in order. */
    ghost var written: seq<seq<Event>>
    /** Every event this thread has captured, in order. */
    ghost var recorded: seq<Event>

    /** Nothing captured is lost or reordered: what was written, followed by
        what is still listed, is everything captured. */
    ghost predicate Valid()
      reads this
    {
      Flatten(written) + events == recorded
    }

    /** A thread starts with an empty list; `_cachedSize` is left unset. */
    constructor ()
      ensures Valid()
      ensures events == [] && written == [] && recorded == []
    {
      events := [];
      written := [];
      recorded := [];
    }

    /** Drains the list through a buffer of `BUF_LEN` records, writing the
        buffer each time its index wraps to 0 and once more at the end. */
    method WriteEvents()
      requires Valid()
      modifies this`events, this`written
      ensures Valid()
      ensures events == []
      ensures written == old(written) + WriteLayout(old(events), BUF_LEN)
    {
      var buf := new Event[BUF_LEN];
      var nextIndex := 0;
      ghost var s0 := events;
      ghost var w0 := written;
      ghost var full := 0;
      ghost var base := 0;
      while events != []
        invariant 0 <= nextIndex < BUF_LEN && buf.Length == BUF_LEN
        invariant base == full * BUF_LEN
        invariant base + nextIndex <= |s0| && events == s0[base + nextIndex..]
        invariant written == w0 + Blocks(s0[..base], BUF_LEN)
        invariant forall k :: 0 <= k < nextIndex ==> buf[k] == s0[base + k]
        decreases |events|
      {
        buf[nextIndex] := events[0];
        nextIndex := (nextIndex + 1) % BUF_LEN;
        if nextIndex == 0 {
          FullBuffer(s0, buf[..], full);
          written := written + [buf[..]];
          full := full + 1;
          base := base + BUF_LEN;
        }
        events := events[1..];
      }
      Drained(w0, s0, buf[..], full, nextIndex);
      written := written + [buf[..nextIndex]];
    }

    /** At thread exit the list is drained and found empty: everything the
        thread captured has then been written, in order. */
    method ThreadFini()
      requires Valid()
      modifies this`events, this`written
      ensures Valid()
      ensures events == [] && Flatten(written) == recorded
      ensures written == old(written) + WriteLayout(old(events), BUF_LEN)
    {
      WriteEvents();
      assert events == [];
    }

    /** Entry of malloc: remembers the requested size, and nothing else. */
    method MallocBefore(size: u64)
      requires Valid()
      modifies this`cachedSize
      ensures Valid()
      ensures cachedSize == size
    {
      cachedSize := size;
    }

    /** Exit of malloc: logs the returned address with the size cached at
        entry, cut to the record's `unsigned int`. A null result is logged too. */
    method MallocAfter(threadId: u32, retVal: u64, timestamp: u32)
      requires Valid()
      modifies this`events, this`recorded
      ensures Valid()
      ensures events == old(events) + [Event(Code(Malloc), retVal, ToU32(cachedSize), threadId, timestamp)]
      ensures recorded == old(recorded) + [Event(Code(Malloc), retVal, ToU32(cachedSize), threadId, timestamp)]
    {
      var e := Event(Code(Malloc), retVal, ToU32(cachedSize), threadId, timestamp);
      events := events + [e];
      recorded := recorded + [e];
    }

    /** Entry of free: logs the pointer with size 0, whatever it is, null included. */
    method FreeHook(threadId: u32, ptr: u64, timestamp: u32)
      requires Valid()
      modifies this`events, this`recorded
      ensures Valid()
      ensures events == old(events) + [Event(Code(Free), ptr, 0, threadId, timestamp)]
      ensures recorded == old(recorded) + [Event(Code(Free), ptr, 0, threadId, timestamp)]
    {
      var e := Event(Code(Free), ptr, 0, threadId, timestamp);
      events := events + [e];
      recorded := recorded + [e];
    }

    /** A sampled read: dropped when the draw is below THRESHOLD; otherwise
        logged, and the list drained once it holds MAX_SIZE events. */
    method ReadsMem(threadId: u32, addrRead: u64, readSize: u32, draw: int, timestamp: u32)
      requires Valid()
      modifies this`events, this`recorded, this`written
      ensures Valid()
      ensures draw < THRESHOLD ==>
        events == old(events) && recorded == old(recorded) && written == old(written)
      ensures draw >= THRESHOLD ==>
        recorded == old(recorded) + [Event(Code(Read), addrRead, readSize, threadId, timestamp)]
      ensures draw >= THRESHOLD && |old(events)| + 1 < MAX_SIZE ==>
        events == old(events) + [Event(Code(Read), addrRead, readSize, threadId, timestamp)] &&
        written == old(written)
      ensures draw >= THRESHOLD && |old(events)| + 1 >= MAX_SIZE ==>
        events == [] &&
        written == old(written) + WriteLayout(old(events) + [Event(Code(Read), addrRead, readSize, threadId, timestamp)], BUF_LEN)
      ensures draw >= THRESHOLD ==> |events| < MAX_SIZE
    {
      if draw < THRESHOLD {
        return;
      }
      var e := Event(Code(Read), addrRead, readSize, threadId, timestamp);
      events := events + [e];
      recorded := recorded + [e];
      if |events| >= MAX_SIZE {
        WriteEvents();
      }
    }

    /** A sampled write: dropped when the draw is below THRESHOLD; otherwise
        logged. The list is never drained here, however long it grows. */
    method WritesMem(threadId: u32, addrWritten: u64, writeSize: u32, draw: int, timestamp: u32)
      requires Valid()
      modifies this`events, this`recorded
      ensures Valid()
      ensures draw < THRESHOLD ==> events == old(events) && recorded == old(recorded)
      ensures draw >= THRESHOLD ==>
        events == old(events) + [Event(Code(Write), addrWritten, writeSize, threadId, timestamp)] &&
        recorded == old(recorded) + [Event(Code(Write), addrWritten, writeSize, threadId, timestamp)]
    {
      if draw < THRESHOLD {
        return;
      }
      var e := Event(Code(Write), addrWritten, writeSize, threadId, timestamp);
      events := events + [e];
      recorded := recorded + [e];
    }
  }
}
