/** The offline statistics tool (tools/ctstats.cpp): reads the binary log
    record by record, checks each record's kind, counts the records of each
    kind after the first and tells whether any of them came from another
    thread than the first. The file is given as the sequence of its whole
    records. */
module CtStats {
  import opened Common
  import opened Events

  /** `isLog`: the record's discriminant is one of the four kinds. */
  function IsLog(e: Event): (b: bool)
    ensures b <==> KindOf(e.action).Some?
    ensures b <==> 0 <= e.action < 4
  {
    e.action == Code(Malloc) || e.action == Code(Free) || e.action == Code(Read) || e.action == Code(Write)
  }

  /** Number of records of `s` whose discriminant is `a`. */
  function CountAction(s: seq<Event>, a: int): nat
  {
    if s == [] then 0
    else CountAction(s[..|s| - 1], a) + (if s[|s| - 1].action == a then 1 else 0)
  }

  /** The records a file of `fileSize` bytes holds when each takes
      `recordSize` bytes: a partial record at the end is not counted. */
  function NumEvents(fileSize: nat, recordSize: nat): (n: nat)
    requires recordSize > 0
    ensures n * recordSize <= fileSize < (n + 1) * recordSize
  {
    fileSize / recordSize
  }

  /** What the tool reports: the four counters in the order malloc, free,
      read, write, and whether the log is multithreaded; or the position of
      the first record on which its `assert(isLog(&e))` fails. */
  datatype Outcome =
    | Report(counts: seq<nat>, multithreaded: bool)
    | AssertionFailed(index: nat)

  /** Some record after the first was logged by another thread. */
  predicate OtherThread(file: seq<Event>, n: nat)
    requires 0 < |file| && n <= |file|
  {
    exists j :: 1 <= j < n && file[j].threadId != file[0].threadId
  }

  lemma CountActionSnoc(s: seq<Event>, i: nat, a: int)
    requires 1 <= i < |s|
    ensures CountAction(s[1..i + 1], a) == CountAction(s[1..i], a) + (if s[i].action == a then 1 else 0)
  {
    assert s[1..i + 1][..i - 1] == s[1..i];
  }

  /** When every record is one of the four kinds, the four counters add up
      to the number of records. */
  lemma {:induction false} CountsSum(s: seq<Event>)
    requires forall i :: 0 <= i < |s| ==> IsLog(s[i])
    ensures CountAction(s, 0) + CountAction(s, 1) + CountAction(s, 2) + CountAction(s, 3) == |s|
    decreases |s|
  {
    if s != [] {
      CountsSum(s[..|s| - 1]);
      assert IsLog(s[|s| - 1]);
    }
  }

  /** The loop of the tool's `main` over the records after the first. A file
      without records is not read: the tool's first `read` would leave its
      record uninitialised. */
  method Summarize(file: seq<Event>) returns (r: Outcome)
    requires |file| > 0
    ensures r.AssertionFailed? <==> exists i :: 0 <= i < |file| && !IsLog(file[i])
    ensures r.AssertionFailed? ==>
      r.index < |file| && !IsLog(file[r.index]) &&
      forall i :: 0 <= i < r.index ==> IsLog(file[i])
    ensures r.Report? ==> |r.counts| == 4
    ensures r.Report? ==> forall k :: 0 <= k < 4 ==> r.counts[k] == CountAction(file[1..], k)
    ensures r.Report? ==> r.counts[0] + r.counts[1] + r.counts[2] + r.counts[3] == |file| - 1
    ensures r.Report? ==> (r.multithreaded <==> OtherThread(file, |file|))
  {
    if !IsLog(file[0]) {
      return AssertionFailed(0);
    }
    var initThread := file[0].threadId;
    var stats := new nat[4](_ => 0);
    var hasMultipleThreads := false;
    var i := 1;
    while i < |file|
      invariant 1 <= i <= |file|
      invariant forall j :: 0 <= j < i ==> IsLog(file[j])
      invariant forall k :: 0 <= k < 4 ==> stats[k] == CountAction(file[1..i], k)
      invariant hasMultipleThreads <==> OtherThread(file, i)
    {
      var e := file[i];
      if !IsLog(e) {
        return AssertionFailed(i);
      }
      forall k | 0 <= k < 4 {
        CountActionSnoc(file, i, k);
      }
      stats[e.action] := stats[e.action] + 1;
      if e.threadId != initThread {
        hasMultipleThreads := true;
      }
      i := i + 1;
    }
    assert file[1..i] == file[1..];
    CountsSum(file[1..]);
    return Report(stats[..], hasMultipleThreads);
  }
}
