/** The timestamp check of test/testtime.cpp over the decoded log: it walks
    adjacent pairs and stops at the first pair out of order. */
module TestTime {
  import opened Common
  import opened Events

  /** What the check prints: the first inverted pair with its position, or
      the first and last timestamps. */
  datatype Verdict =
    | Failure(index: nat, cur: u32, next: u32)
    | Success(start: u32, end: u32)

  /** Every timestamp is at most the one after it, the check both
      test/testtime.cpp and test/test_time.py make. */
  predicate NonDecreasing(s: seq<Event>)
  {
    forall i :: 0 <= i < |s| - 1 ==> s[i].timestamp <= s[i + 1].timestamp
  }

  /** Every timestamp is at most every later one. */
  predicate Ordered(s: seq<Event>)
  {
    forall i, j :: 0 <= i <= j < |s| ==> s[i].timestamp <= s[j].timestamp
  }

  /** Ordered adjacent pairs are the same as an ordered log. */
  lemma {:induction false} NonDecreasingOrdered(s: seq<Event>)
    ensures NonDecreasing(s) <==> Ordered(s)
    decreases |s|
  {
    if NonDecreasing(s) && |s| > 1 {
      var t := s[1..];
      assert NonDecreasing(t) by {
        forall i | 0 <= i < |t| - 1 ensures t[i].timestamp <= t[i + 1].timestamp {
          assert t[i] == s[i + 1] && t[i + 1] == s[i + 2];
        }
      }
      NonDecreasingOrdered(t);
      forall i, j | 0 <= i <= j < |s| ensures s[i].timestamp <= s[j].timestamp {
        if 0 < i {
          assert s[i] == t[i - 1] && s[j] == t[j - 1];
        } else if 0 < j {
          assert s[1] == t[0] && s[j] == t[j - 1];
        }
      }
    }
  }

  /** The loop of the checker's `main`. A log without records is excluded:
      `size() - 1` would wrap around and `front()` would have nothing to read. */
  method Check(events: seq<Event>) returns (v: Verdict)
    requires |events| > 0
    ensures v.Success? <==> NonDecreasing(events)
    ensures v.Failure? ==>
      v.index + 1 < |events| &&
      v.cur == events[v.index].timestamp && v.next == events[v.index + 1].timestamp &&
      v.cur > v.next &&
      forall i :: 0 <= i < v.index ==> events[i].timestamp <= events[i + 1].timestamp
    ensures v.Success? ==>
      v.start == events[0].timestamp && v.end == events[|events| - 1].timestamp &&
      v.start <= v.end
  {
    var i := 0;
    while i < |events| - 1
      invariant 0 <= i <= |events| - 1
      invariant forall j :: 0 <= j < i ==> events[j].timestamp <= events[j + 1].timestamp
    {
      var cur := events[i].timestamp;
      var next := events[i + 1].timestamp;
      if cur > next {
        return Failure(i, cur, next);
      }
      i := i + 1;
    }
    NonDecreasingOrdered(events);
    return Success(events[0].timestamp, events[|events| - 1].timestamp);
  }
}
