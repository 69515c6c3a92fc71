/** The call-stack record of an allocation or deallocation
    (include/backtrace.hpp): a fixed array of `maxDepth` source locations,
    filled from the unwinder, copied elementwise, and rendered as a JSON
    array. */
module Backtraces {
  import opened Common
  import opened JsonText

  /** A (source file, line) pair; the path is empty when the unwinder could
      not resolve the frame. */
  datatype Location = Location(path: string, line: i32)

  const Unresolved: Location := Location("", 0)

  /** The array `trace` has `maxDepth` entries, the depth configured for the
      whole process; every Backtrace is built with that same depth. */
  class Backtrace {
    var trace: array<Location>

    /** Allocates `maxDepth` slots and sets each to ("", 0). */
    constructor (maxDepth: nat)
      ensures fresh(trace) && trace.Length == maxDepth
      ensures forall i :: 0 <= i < maxDepth ==> trace[i] == Unresolved
    {
      var t := new Location[maxDepth];
      var i := 0;
      while i < maxDepth
        invariant 0 <= i <= maxDepth
        invariant forall k :: 0 <= k < i ==> t[k] == Unresolved
      {
        t[i] := Unresolved;
        i := i + 1;
      }
      trace := t;
    }

    /** Fills the trace from the unwinder. `ctxt` is None for a null context;
        otherwise it holds the resolved location of each frame the unwinder
        returned for that context, innermost (malloc/free itself) first. The
        unwinder is given room for `maxDepth + 1` frames. */
    method SetTrace(ctxt: Option<seq<Location>>)
      requires ctxt.Some? ==> |ctxt.value| <= trace.Length + 1
      modifies trace
      ensures ctxt.None? ==> trace[..] == old(trace[..])
      ensures ctxt.Some? ==> forall k :: 0 <= k < trace.Length ==>
        trace[k] == if k < |ctxt.value| - 1 then ctxt.value[k + 1] else old(trace[k])
    {
      if ctxt.None? {
        return;
      }
      var frames := ctxt.value;
      var depth := |frames| - 1;
      var i := 1;
      while i < depth + 1
        invariant 1 <= i <= if depth + 1 < 1 then 1 else depth + 1
        invariant forall k :: 0 <= k < trace.Length ==>
          trace[k] == if k < i - 1 then frames[k + 1] else old(trace[k])
      {
        trace[i - 1] := frames[i];
        i := i + 1;
      }
    }

    /** `operator=`: copies all `maxDepth` entries of `b`. */
    method Assign(b: Backtrace)
      requires b.trace.Length == trace.Length
      modifies trace
      ensures trace[..] == old(b.trace[..])
      ensures b.trace[..] == trace[..]
    {
      var i := 0;
      while i < trace.Length
        invariant 0 <= i <= trace.Length
        invariant forall k :: 0 <= k < i ==> trace[k] == old(b.trace[k])
        invariant forall k :: i <= k < trace.Length ==> trace[k] == old(trace[k]) && b.trace[k] == old(b.trace[k])
        invariant b.trace == trace || b.trace[..] == old(b.trace[..])
      {
        trace[i] := b.trace[i];
        i := i + 1;
      }
    }
  }

  /** One entry of the array: an unresolved entry (empty path) is written
      with line 0 whatever line it holds; otherwise the path is written
      verbatim, without escaping, and the line in decimal. */
  function LocationJson(l: Location): string
  {
    if l.path == "" then "{\"path\":\"\",\"line\":0}"
    else "{\"path\":\"" + l.path + "\",\"line\":" + Decimal(l.line) + "}"
  }

  /** The entries from index `i` on, each followed by a comma when another
      entry comes after it. */
  function EntriesFrom(t: seq<Location>, i: nat): string
    decreases |t| - i
  {
    if i >= |t| then ""
    else LocationJson(t[i]) + (if i < |t| - 1 then "," else "") + EntriesFrom(t, i + 1)
  }

  /** `operator<<` on a Backtrace, over its `maxDepth` entries. */
  function Render(t: seq<Location>): string
  {
    "[" + EntriesFrom(t, 0) + "]"
  }

  /** Independent reference: the texts joined by one separating comma each. */
  function Join(items: seq<string>): string
  {
    if |items| == 0 then ""
    else if |items| == 1 then items[0]
    else items[0] + "," + Join(items[1..])
  }

  /** The texts of the entries, one per entry. */
  function EntryTexts(t: seq<Location>): (r: seq<string>)
    ensures |r| == |t| && forall k :: 0 <= k < |t| ==> r[k] == LocationJson(t[k])
  {
    seq(|t|, k requires 0 <= k < |t| => LocationJson(t[k]))
  }

  /** What a rendered entry reads back as: unresolved entries lose their line. */
  function Normal(l: Location): Location
  {
    if l.path == "" then Unresolved else l
  }

  function Normalized(t: seq<Location>): (r: seq<Location>)
    ensures |r| == |t| && forall k :: 0 <= k < |t| ==> r[k] == Normal(t[k])
  {
    seq(|t|, k requires 0 <= k < |t| => Normal(t[k]))
  }

  /** Every path can be written into a JSON string without escaping. */
  predicate PathsSafe(t: seq<Location>)
  {
    forall k :: 0 <= k < |t| ==> JsonSafe(t[k].path)
  }

  /** Reads one `{"path":<string>,"line":<int>}` object. */
  function ParseLocation(s: string): (r: Option<(Location, string)>)
    ensures r.Some? ==> |r.value.1| < |s|
  {
    match Lit("{\"path\":", s)
    case None => None
    case Some(s1) =>
      match ParseString(s1)
      case None => None
      case Some((path, s2)) =>
        match Lit(",\"line\":", s2)
        case None => None
        case Some(s3) =>
          match ParseInt(s3)
          case None => None
          case Some((line, s4)) =>
            if !(-0x8000_0000 <= line < 0x8000_0000) then None
            else
              match Lit("}", s4)
              case None => None
              case Some(s5) => Some((Location(path, line), s5))
  }

  /** Reads objects separated by commas, up to and including the closing bracket. */
  function ParseEntries(s: string): (r: Option<(seq<Location>, string)>)
    ensures r.Some? ==> |r.value.1| < |s|
    decreases |s|
  {
    match ParseLocation(s)
    case None => None
    case Some((l, s1)) =>
      if |s1| > 0 && s1[0] == ',' then
        match ParseEntries(s1[1..])
        case None => None
        case Some((ls, s2)) => Some(([l] + ls, s2))
      else if |s1| > 0 && s1[0] == ']' then Some(([l], s1[1..]))
      else None
  }

  /** Reads a JSON array of location objects. */
  function ParseTrace(s: string): (r: Option<(seq<Location>, string)>)
  {
    match Lit("[", s)
    case None => None
    case Some(s1) =>
      if |s1| > 0 && s1[0] == ']' then Some(([], s1[1..]))
      else ParseEntries(s1)
  }

  /** The text of `LocationJson` regrouped as the reader consumes it,
      field by field, with the text that follows it. */
  function LocationText(path: string, line: int, rest: string): string
  {
    "{\"path\":" + ("\"" + path + "\"" + (",\"line\":" + (Decimal(line) + ("}" + rest))))
  }

  lemma ParseLocationText(path: string, line: i32, rest: string)
    requires JsonSafe(path)
    ensures ParseLocation(LocationText(path, line, rest)) == Some((Location(path, line), rest))
  {
    var s3 := Decimal(line) + ("}" + rest);
    var s2 := ",\"line\":" + s3;
    LitRoundTrip("{\"path\":", "\"" + path + "\"" + s2);
    StringRoundTrip(path, s2);
    LitRoundTrip(",\"line\":", s3);
    DecimalRoundTrip(line, "}" + rest);
    LitRoundTrip("}", rest);
  }

  lemma UnresolvedText(l: Location, rest: string)
    requires l.path == ""
    ensures LocationJson(l) + rest == LocationText("", 0, rest)
  {
    assert Decimal(0) == "0";
  }

  lemma ResolvedText(l: Location, rest: string)
    requires l.path != ""
    ensures LocationJson(l) + rest == LocationText(l.path, l.line, rest)
  {
    var q := "\"" + l.path + "\"";
    var d := Decimal(l.line);
    assert LocationJson(l) == "{\"path\":" + q + ",\"line\":" + d + "}";
    assert LocationJson(l) + rest == "{\"path\":" + (q + (",\"line\":" + (d + ("}" + rest))));
  }

  lemma LocationJsonText(l: Location, rest: string)
    ensures LocationJson(l) + rest == LocationText(Normal(l).path, Normal(l).line, rest)
  {
    if l.path == "" {
      UnresolvedText(l, rest);
    } else {
      ResolvedText(l, rest);
    }
  }

  lemma LocationRoundTrip(l: Location, rest: string)
    requires JsonSafe(l.path)
    ensures ParseLocation(LocationJson(l) + rest) == Some((Normal(l), rest))
  {
    LocationJsonText(l, rest);
    ParseLocationText(Normal(l).path, Normal(l).line, rest);
  }

  lemma ParseEntriesMore(s: string, l: Location, after: string, ls: seq<Location>, rest: string)
    requires ParseLocation(s) == Some((l, "," + after))
    requires ParseEntries(after) == Some((ls, rest))
    ensures ParseEntries(s) == Some(([l] + ls, rest))
  {
    assert ("," + after)[1..] == after;
  }

  lemma ParseEntriesLast(s: string, l: Location, rest: string)
    requires ParseLocation(s) == Some((l, "]" + rest))
    ensures ParseEntries(s) == Some(([l], rest))
  {
    assert ("]" + rest)[1..] == rest;
  }

  lemma EntriesFromLast(t: seq<Location>, i: nat)
    requires i == |t| - 1
    ensures EntriesFrom(t, i) == LocationJson(t[i])
  {
    assert EntriesFrom(t, i + 1) == "";
  }

  lemma EntriesFromMore(t: seq<Location>, i: nat)
    requires i < |t| - 1
    ensures EntriesFrom(t, i) == LocationJson(t[i]) + "," + EntriesFrom(t, i + 1)
  {
  }

  lemma EntriesRoundTripLast(t: seq<Location>, i: nat, rest: string)
    requires i == |t| - 1 && PathsSafe(t)
    ensures ParseEntries(EntriesFrom(t, i) + "]" + rest) == Some((Normalized(t)[i..], rest))
  {
    EntriesFromLast(t, i);
    var s := EntriesFrom(t, i) + "]" + rest;
    assert s == LocationJson(t[i]) + ("]" + rest);
    LocationRoundTrip(t[i], "]" + rest);
    ParseEntriesLast(s, Normal(t[i]), rest);
    assert Normalized(t)[i..] == [Normal(t[i])];
  }

  /** Reassociates the text of an entry, its separator and the entries after it. */
  lemma Regroup(a: string, sep: string, b: string, rest: string)
    ensures a + sep + b + "]" + rest == a + (sep + (b + "]" + rest))
  {
  }

  lemma NormalizedFrom(t: seq<Location>, i: nat)
    requires i < |t|
    ensures Normalized(t)[i..] == [Normal(t[i])] + Normalized(t)[i + 1..]
  {
  }

  lemma EntriesRoundTripStep(t: seq<Location>, i: nat, rest: string)
    requires i < |t| - 1 && PathsSafe(t)
    requires ParseEntries(EntriesFrom(t, i + 1) + "]" + rest) == Some((Normalized(t)[i + 1..], rest))
    ensures ParseEntries(EntriesFrom(t, i) + "]" + rest) == Some((Normalized(t)[i..], rest))
  {
    var after := EntriesFrom(t, i + 1) + "]" + rest;
    EntriesFromMore(t, i);
    Regroup(LocationJson(t[i]), ",", EntriesFrom(t, i + 1), rest);
    LocationRoundTrip(t[i], "," + after);
    ParseEntriesMore(EntriesFrom(t, i) + "]" + rest, Normal(t[i]), after, Normalized(t)[i + 1..], rest);
    NormalizedFrom(t, i);
  }

  lemma {:induction false} EntriesRoundTrip(t: seq<Location>, i: nat, rest: string)
    requires i < |t| && PathsSafe(t)
    ensures ParseEntries(EntriesFrom(t, i) + "]" + rest) == Some((Normalized(t)[i..], rest))
    decreases |t| - i
  {
    if i < |t| - 1 {
      EntriesRoundTrip(t, i + 1, rest);
      EntriesRoundTripStep(t, i, rest);
    } else {
      EntriesRoundTripLast(t, i, rest);
    }
  }

  lemma SafeRenderReadsBack(t: seq<Location>, rest: string)
    requires PathsSafe(t)
    ensures ParseTrace(Render(t) + rest) == Some((Normalized(t), rest))
  {
    var s1 := EntriesFrom(t, 0) + "]" + rest;
    assert Render(t) + rest == "[" + s1;
    LitRoundTrip("[", s1);
    if |t| == 0 {
      assert s1 == "]" + rest;
      assert s1[1..] == rest;
    } else {
      assert s1[0] == '{';
      EntriesRoundTrip(t, 0, rest);
      assert Normalized(t)[0..] == Normalized(t);
    }
  }

  /** A JSON string body is read up to the first character that may not
      stand unescaped: a quotation mark there cuts the body short, any other
      such character makes the read fail. */
  lemma {:induction false} UnsafeBodyCut(p: string, x: string)
    requires !JsonSafe(p)
    ensures StringBody(p + x).None? || |StringBody(p + x).value.0| < |p|
    decreases |p|
  {
    assert (p + x)[0] == p[0];
    if SafeChar(p[0]) {
      assert !JsonSafe(p[1..]) by {
        var i :| 0 <= i < |p| && !SafeChar(p[i]);
        assert p[1..][i - 1] == p[i];
      }
      assert (p + x)[1..] == p[1..] + x;
      UnsafeBodyCut(p[1..], x);
    }
  }

  /** An entry whose path needs escaping never reads back with that path. */
  lemma UnsafePathMisread(l: Location, rest: string)
    requires !JsonSafe(l.path)
    ensures ParseLocation(LocationJson(l) + rest).None? ||
            ParseLocation(LocationJson(l) + rest).value.0.path != l.path
  {
    assert l.path != "";
    ResolvedText(l, rest);
    var tail := ",\"line\":" + (Decimal(l.line) + ("}" + rest));
    var x := "\"" + l.path + "\"" + tail;
    LitRoundTrip("{\"path\":", x);
    assert x == "\"" + (l.path + ("\"" + tail));
    LitRoundTrip("\"", l.path + ("\"" + tail));
    UnsafeBodyCut(l.path, "\"" + tail);
  }

  lemma ParseEntriesFirst(s: string, ls: seq<Location>, r: string)
    requires ParseEntries(s) == Some((ls, r))
    ensures ParseLocation(s).Some? && |ls| > 0 && ls[0] == ParseLocation(s).value.0
  {
  }

  lemma ParseEntriesRest(s: string, l: Location, after: string, ls: seq<Location>, r: string)
    requires ParseLocation(s) == Some((l, "," + after))
    requires ParseEntries(s) == Some((ls, r))
    ensures ParseEntries(after) == Some((ls[1..], r))
  {
    assert ("," + after)[1..] == after;
  }

  lemma ParseTraceEntries(s: string)
    requires |s| > 0 && s[0] != ']'
    ensures ParseTrace("[" + s) == ParseEntries(s)
  {
    LitRoundTrip("[", s);
  }

  /** An entry that reads back as itself has a path that needs no escaping. */
  lemma ReadBackPathIsSafe(l: Location, after: string)
    requires ParseLocation(LocationJson(l) + after).Some?
    requires ParseLocation(LocationJson(l) + after).value.0 == Normal(l)
    ensures JsonSafe(l.path)
  {
    if !JsonSafe(l.path) {
      UnsafePathMisread(l, after);
      assert false;
    }
  }

  lemma OnlyIfSafeStep(t: seq<Location>, i: nat, rest: string)
    requires i < |t| - 1
    requires ParseEntries(EntriesFrom(t, i) + "]" + rest) == Some((Normalized(t)[i..], rest))
    ensures JsonSafe(t[i].path)
    ensures ParseEntries(EntriesFrom(t, i + 1) + "]" + rest) == Some((Normalized(t)[i + 1..], rest))
  {
    var s := EntriesFrom(t, i) + "]" + rest;
    var ls := Normalized(t)[i..];
    var next := EntriesFrom(t, i + 1) + "]" + rest;
    EntriesFromMore(t, i);
    Regroup(LocationJson(t[i]), ",", EntriesFrom(t, i + 1), rest);
    ParseEntriesFirst(s, ls, rest);
    NormalizedFrom(t, i);
    ReadBackPathIsSafe(t[i], "," + next);
    LocationRoundTrip(t[i], "," + next);
    ParseEntriesRest(s, Normal(t[i]), next, ls, rest);
  }

  lemma OnlyIfSafeLast(t: seq<Location>, i: nat, rest: string)
    requires i == |t| - 1
    requires ParseEntries(EntriesFrom(t, i) + "]" + rest) == Some((Normalized(t)[i..], rest))
    ensures JsonSafe(t[i].path)
  {
    var s := EntriesFrom(t, i) + "]" + rest;
    EntriesFromLast(t, i);
    Regroup(LocationJson(t[i]), "", "", rest);
    assert LocationJson(t[i]) + "" + "" == LocationJson(t[i]);
    assert "" + ("" + "]" + rest) == "]" + rest;
    ParseEntriesFirst(s, Normalized(t)[i..], rest);
    NormalizedFrom(t, i);
    ReadBackPathIsSafe(t[i], "]" + rest);
  }

  lemma {:induction false} EntriesReadBackOnlyIfSafe(t: seq<Location>, i: nat, rest: string)
    requires i < |t|
    requires ParseEntries(EntriesFrom(t, i) + "]" + rest) == Some((Normalized(t)[i..], rest))
    ensures forall k :: i <= k < |t| ==> JsonSafe(t[k].path)
    decreases |t| - i
  {
    if i < |t| - 1 {
      OnlyIfSafeStep(t, i, rest);
      EntriesReadBackOnlyIfSafe(t, i + 1, rest);
    } else {
      OnlyIfSafeLast(t, i, rest);
    }
  }

  lemma RenderText(t: seq<Location>, rest: string)
    ensures Render(t) + rest == "[" + (EntriesFrom(t, 0) + "]" + rest)
  {
  }

  /** A non-empty run of entries starts with the brace of its first object. */
  lemma EntriesFromOpens(t: seq<Location>, i: nat)
    requires i < |t|
    ensures |EntriesFrom(t, i)| > 0 && EntriesFrom(t, i)[0] == '{'
  {
    if i < |t| - 1 {
      EntriesFromMore(t, i);
    } else {
      EntriesFromLast(t, i);
    }
  }

  lemma RenderReadsBackOnlyIfSafe(t: seq<Location>, rest: string)
    requires ParseTrace(Render(t) + rest) == Some((Normalized(t), rest))
    ensures PathsSafe(t)
  {
    if |t| > 0 {
      var s1 := EntriesFrom(t, 0) + "]" + rest;
      RenderText(t, rest);
      EntriesFromOpens(t, 0);
      ParseTraceEntries(s1);
      assert Normalized(t)[0..] == Normalized(t);
      EntriesReadBackOnlyIfSafe(t, 0, rest);
    }
  }

  /** The rendering reads back as one object per entry, in order, up to the
      line of unresolved entries, so it is the JSON array (RFC 8259
      section 5) of exactly `|t|` objects, exactly when no path needs
      escaping. */
  lemma RenderRoundTrip(t: seq<Location>, rest: string)
    ensures ParseTrace(Render(t) + rest) == Some((Normalized(t), rest)) <==> PathsSafe(t)
  {
    if PathsSafe(t) {
      SafeRenderReadsBack(t, rest);
    }
    if ParseTrace(Render(t) + rest) == Some((Normalized(t), rest)) {
      RenderReadsBackOnlyIfSafe(t, rest);
    }
  }

  /** The separator text between two objects, split at the comma. */
  lemma Splice(a: string, d: string, b: string, e: string)
    ensures "{\"path\":\"" + (a + "\",\"line\":" + d + "},{\"path\":\"" + b) + "\",\"line\":" + e + "}"
         == ("{\"path\":\"" + a + "\",\"line\":" + d + "}") + "," + ("{\"path\":\"" + b + "\",\"line\":" + e + "}")
  {
    assert "},{\"path\":\"" == "}" + "," + "{\"path\":\"";
  }

  /** The path that closes one entry and opens the next. */
  function ForgedPath(a: string, m: i32, b: string): string
  {
    a + "\",\"line\":" + Decimal(m) + "},{\"path\":\"" + b
  }

  /** The one forged entry is written as the two entries it imitates. */
  lemma ForgedEntryText(a: string, m: i32, b: string, n: i32)
    requires a != "" && b != ""
    ensures LocationJson(Location(ForgedPath(a, m, b), n))
         == LocationJson(Location(a, m)) + "," + LocationJson(Location(b, n))
  {
    Splice(a, Decimal(m), b, Decimal(n));
  }

  lemma TwoEntries(u: seq<Location>)
    requires |u| == 2
    ensures EntriesFrom(u, 0) == LocationJson(u[0]) + "," + LocationJson(u[1])
  {
    EntriesFromMore(u, 0);
    EntriesFromLast(u, 1);
  }

  /** Paths are written verbatim, so a path holding the text that closes one
      entry and opens the next renders exactly as two entries do: one
      location then reads back as two. */
  lemma PathForgesEntries(a: string, m: i32, b: string, n: i32)
    requires a != "" && b != ""
    ensures Render([Location(ForgedPath(a, m, b), n)]) == Render([Location(a, m), Location(b, n)])
    ensures JsonSafe(a) && JsonSafe(b) ==>
      ParseTrace(Render([Location(ForgedPath(a, m, b), n)])) == Some(([Location(a, m), Location(b, n)], ""))
  {
    var t := [Location(ForgedPath(a, m, b), n)];
    var u := [Location(a, m), Location(b, n)];
    EntriesFromLast(t, 0);
    TwoEntries(u);
    ForgedEntryText(a, m, b, n);
    if JsonSafe(a) && JsonSafe(b) {
      assert PathsSafe(u);
      SafeRenderReadsBack(u, "");
      assert Normalized(u) == u;
      assert Render(u) + "" == Render(u);
    }
  }

  lemma {:induction false} EntriesFromIsJoin(t: seq<Location>, i: nat)
    requires i <= |t|
    ensures EntriesFrom(t, i) == Join(EntryTexts(t)[i..])
    decreases |t| - i
  {
    var texts := EntryTexts(t);
    if i < |t| {
      EntriesFromIsJoin(t, i + 1);
      assert texts[i..][1..] == texts[i + 1..];
      if i == |t| - 1 {
        assert EntriesFrom(t, i + 1) == "";
      }
    }
  }

  /** The rendering is an opening bracket, the `|t|` entry texts joined by
      `|t| - 1` commas, and a closing bracket; `[]` when there are no entries. */
  lemma RenderIsJoin(t: seq<Location>)
    ensures Render(t) == "[" + Join(EntryTexts(t)) + "]"
    ensures t == [] ==> Render(t) == "[]"
  {
    EntriesFromIsJoin(t, 0);
    assert EntryTexts(t)[0..] == EntryTexts(t);
  }

  /** Lines stored with an empty path never reach the output. */
  lemma RenderIgnoresUnresolvedLines(t: seq<Location>, u: seq<Location>)
    requires Normalized(t) == Normalized(u)
    ensures Render(t) == Render(u)
  {
    assert |t| == |u|;
    forall k | 0 <= k < |t|
      ensures LocationJson(t[k]) == LocationJson(u[k])
    {
      assert Normal(t[k]) == Normal(u[k]);
    }
    assert EntryTexts(t) == EntryTexts(u);
    RenderIsJoin(t);
    RenderIsJoin(u);
  }

  lemma QuoteEndsPathEarly(a: string, b: string, line: i32, rest: string)
    requires JsonSafe(a) && |b| > 0 && b[0] != ','
    ensures ParseLocation(LocationText(a + "\"" + b, line, rest)) == None
  {
    var s2 := ",\"line\":" + (Decimal(line) + ("}" + rest));
    var tail := b + "\"" + s2;
    assert "\"" + (a + "\"" + b) + "\"" + s2 == "\"" + a + "\"" + tail;
    LitRoundTrip("{\"path\":", "\"" + a + "\"" + tail);
    StringRoundTrip(a, tail);
    assert tail[0] == b[0];
  }

  /** A non-empty path is copied into the output as it is: when the first
      path holds a quotation mark (not followed by a comma), the JSON string
      ends early and the rendered array does not read back at all. */
  lemma UnescapedQuoteBreaksRender(t: seq<Location>, a: string, b: string)
    requires |t| > 0 && t[0].path == a + "\"" + b
    requires JsonSafe(a) && |b| > 0 && b[0] != ','
    ensures ParseTrace(Render(t)) == None
  {
    var after := (if 0 < |t| - 1 then "," else "") + EntriesFrom(t, 1) + "]";
    assert Render(t) == "[" + (LocationJson(t[0]) + after);
    LocationJsonText(t[0], after);
    QuoteEndsPathEarly(a, b, t[0].line, after);
    LitRoundTrip("[", LocationJson(t[0]) + after);
    assert (LocationJson(t[0]) + after)[0] == '{';
  }
}
