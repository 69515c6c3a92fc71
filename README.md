# memlog, modelled in Dafny

memlog is a Pin tool that records, for every thread of an instrumented
program, its calls to malloc and free and a random sample of its memory reads
and writes. Each thread collects its events in a list and, at thread exit (and
for reads once the list grows too long), drains the list into a binary trace
file through a buffer of 65536 records. Offline tools read the binary records
back: `ctstats` counts events per kind and tells whether the trace is
multithreaded, and `testtime` checks that timestamps never go backwards. Events
can also be rendered as JSON objects, with a backtrace of source locations
for malloc and free.

This project models that core and proves its properties:

- `common.dfy` (module `Common`): an Option type, the C integer widths the
  records use (`unsigned int`, `size_t`, `INT32`, signed `char`), and the
  concatenation of a log of chunks.
- `json_text.dfy` (module `JsonText`): decimal printing of integers as
  `std::ostream` prints them, and a small reader for exactly the token shapes
  the tool writes. The reader is the inverse against which the renderers are
  proved. It is not part of the tool.
- `backtraces.dfy` (module `Backtraces`): the class `Backtrace` over an
  `array` of (path, line) locations, with its constructor, `SetTrace` and
  `operator=` as methods with loops. Its JSON rendering is a string function.
- `events.dfy` (module `Events`): the kind enumeration and the binary record
  `Event`. Also a typed event in which only malloc and free carry a
  backtrace, and the JSON rendering of one event with its round trip.
- `memlog.dfy` (module `MemLog`): the per-thread state (`MyTLS`) as the class
  `ThreadState`, the hooks as its methods, and the drain `WriteEvents` over a
  fresh `array` of `BUF_LEN` records. The chunks handed to `write` are kept
  in a ghost log `written`, and every captured event in a ghost `recorded`.
  The invariant `Valid()` says that `Flatten(written) + events == recorded`:
  nothing captured is lost or reordered.
- `ctstats.dfy` (module `CtStats`) and `testtime.dfy` (module `TestTime`): the
  two offline checkers, as loops over the sequence of records in the file.

Constants follow the code:
- `BUF_LEN` = 65536 (src/memlog.cpp:32).
- `MAX_SIZE` = 67108864 (src/memlog.cpp:89).
- `THRESHOLD` = `RAND_MAX / 10` (src/memlog.cpp:29), with the GNU C library's
  `RAND_MAX` of 2^31 - 1.

The files come from different revisions of the program, and the model follows
each file as written:
- The hooks in src/memlog.cpp:80,85,94,105 build an `Event` from four
  arguments, but include/event.hpp:17 takes five, the last being the
  timestamp. The hooks therefore take the timestamp as a parameter.
- src/memlog.cpp:91 reads `tls->seed`, but include/mytls.hpp:22 declares
  `_seed`. The draw of `rand_r` is a parameter of the sampling hooks.

## Model

| member | source | states |
|---|---|---|
| Common.ToU32 | src/memlog.cpp:78-81 | the `size_t` cached size stored in the record's `unsigned int` is kept when below 2^32 and otherwise congruent to it modulo 2^32 |
| JsonText.NatDigits | include/event.hpp:45-49 | an unsigned field prints as a non-empty run of decimal digits without a leading zero |
| JsonText.Decimal | include/event.hpp:45-49 | an integer prints as a non-empty text, a run of digits for a non-negative value and a minus sign before a run of digits for a negative one; what that text means is stated by `DecimalRoundTrip` and `DecimalNatRoundTrip` |
| JsonText.DecimalRoundTrip | include/backtrace.hpp:96-97 | every `INT32` line, negative ones included, printed in decimal reads back as itself, whatever non-digit text follows |
| JsonText.DecimalNatRoundTrip | include/event.hpp:45-49 | every unsigned field printed in decimal reads back as itself before a non-digit |
| JsonText.StringRoundTrip | include/backtrace.hpp:96 | a path that needs no escaping, written between quotation marks, reads back as itself |
| Backtraces.Backtrace.constructor | include/backtrace.hpp:23-29 | a fresh trace has exactly `maxDepth` entries, each ("", 0) |
| Backtraces.Backtrace.SetTrace | include/backtrace.hpp:31-62 | a null context leaves the trace unchanged; otherwise, with depth one less than the unwinder's count, slot k receives frame k+1 for k < depth (frame 0, malloc/free itself, is skipped) and every later slot keeps its value |
| Backtraces.Backtrace.Assign | include/backtrace.hpp:66-72 | `operator=` copies all `maxDepth` entries, including when both sides are the same object, so afterwards the two traces are equal |
| Backtraces.LocationJson | include/backtrace.hpp:92-98 | one entry as `{"path":"…","line":…}`, the path verbatim, with line 0 for an unresolved entry; it is specified by `LocationRoundTrip`, `UnsafePathMisread` and `RenderIgnoresUnresolvedLines` |
| Backtraces.EntriesFrom | include/backtrace.hpp:91-102 | the body of the loop from index i on; it is specified by `EntriesFromIsJoin`, `EntriesRoundTrip` and `EntriesReadBackOnlyIfSafe` |
| Backtraces.Render | include/backtrace.hpp:86-105 | `operator<<` on a backtrace; it is specified by `RenderIsJoin`, `RenderRoundTrip` and `PathForgesEntries` |
| Backtraces.LocationRoundTrip | include/backtrace.hpp:92-98 | one rendered entry reads back as its location, with an unresolved (empty) path reading back as line 0 |
| Backtraces.EntriesRoundTrip | include/backtrace.hpp:91-102 | the entries from index i on, each followed by a comma exactly when another entry comes after it, read back as those entries, except that each unresolved entry (empty path) reads back with line 0 instead of its stored line |
| Backtraces.SafeRenderReadsBack | include/backtrace.hpp:86-105 | when no path needs escaping, the rendering is a JSON array of exactly `maxDepth` objects that reads back as the trace, up to the lines of unresolved entries, whatever text follows it |
| Backtraces.UnsafePathMisread | include/backtrace.hpp:96 | an entry whose path holds a quotation mark, a backslash or a control character never reads back with its own path: the read either fails or yields a different path |
| Backtraces.EntriesReadBackOnlyIfSafe | include/backtrace.hpp:91-102 | if the entries from index i on read back as themselves, then none of their paths needs escaping |
| Backtraces.RenderReadsBackOnlyIfSafe | include/backtrace.hpp:86-105 | if the rendering of a trace reads back as that trace, then none of its paths needs escaping |
| Backtraces.RenderRoundTrip | include/backtrace.hpp:86-105 | the rendering reads back as the trace, up to the lines of unresolved entries, if and only if no path needs escaping |
| Backtraces.ForgedEntryText | include/backtrace.hpp:96-97 | for non-empty a and b, one entry whose path is `a","line":m},{"path":"b` is written as exactly the text of the two entries (a, m) and (b, n) joined by a comma |
| Backtraces.PathForgesEntries | include/backtrace.hpp:86-105 | for non-empty a and b, a one-entry trace with such a path renders exactly as the two-entry trace [(a, m), (b, n)], and when a and b need no escaping it reads back as those two entries |
| Backtraces.EntriesFromIsJoin | include/backtrace.hpp:91-102 | the loop's output from index i on equals the entry texts from i on joined by single commas |
| Backtraces.RenderIsJoin | include/backtrace.hpp:90-103 | the rendering is `[`, the `maxDepth` entry texts joined by `maxDepth - 1` commas, and `]`; it is `[]` when `maxDepth` is 0 |
| Backtraces.RenderIgnoresUnresolvedLines | include/backtrace.hpp:92-93 | two traces that differ only in the lines stored with an empty path render identically |
| Backtraces.QuoteEndsPathEarly | include/backtrace.hpp:96 | a path `a"b` in which `a` needs no escaping and `b` is non-empty and does not start with a comma ends the JSON string at the quotation mark, and the entry does not read back at all |
| Backtraces.UnescapedQuoteBreaksRender | include/backtrace.hpp:96-97 | since paths are written verbatim, a trace whose first path is such an `a"b` renders as text that does not read back at all; a quotation mark followed by a comma can instead make the text read back as other entries (`PathForgesEntries`) |
| Events.Code | include/event.hpp:6-11 | the kinds are encoded 0, 1, 2, 3 in declaration order |
| Events.KindOf | include/event.hpp:6-11 | a stored discriminant denotes a kind exactly when it is in 0..3, and then that kind's code is the discriminant |
| Events.KindOfCode | include/event.hpp:6-11 | every kind's code denotes that kind again |
| Events.AllocationEvent | include/event.hpp:31-35 | the base fields are stored unchanged, and a malloc or free event carries the backtrace it was built with |
| Events.AccessEvent | include/event.hpp:38-42 | the base fields are stored unchanged and no backtrace is attached |
| Events.Serialize | include/event.hpp:44-55 | the object starts with `{` and always ends with `}` |
| Events.FieldRoundTrip | include/event.hpp:45-49 | a key followed by a number in decimal reads back as that number |
| Events.TypeFieldRoundTrip | include/event.hpp:45 | the object opens with `{"type":` and the kind's code |
| Events.AddrFieldRoundTrip | include/event.hpp:46 | the address follows as `,"addr":` and its value |
| Events.SizeFieldRoundTrip | include/event.hpp:47 | the size follows as `,"size":` and its value |
| Events.TidFieldRoundTrip | include/event.hpp:48 | the thread id follows as `,"tid":` and its value |
| Events.TimeFieldRoundTrip | include/event.hpp:49 | the timestamp follows as `,"time":` and its value |
| Events.EndRoundTrip | include/event.hpp:50-53 | after the common fields a `,"backtrace":` member follows exactly for malloc and free, then the closing brace |
| Events.SerializeRoundTrip | include/event.hpp:44-55 | whenever no backtrace path needs escaping, every event's object reads back as the same event, up to the lines of unresolved backtrace entries: its kind, the five fields in the order type, addr, size, tid, time, and a backtrace exactly for malloc and free |
| MemLog.FullBuffer | src/memlog.cpp:40-47 | each time the index wraps to 0 the buffer holds exactly the next `BUF_LEN` events of the list, in order |
| MemLog.Drained | src/memlog.cpp:52-55 | when the list is empty, the final write carries exactly the remaining `len % BUF_LEN` events, and the log keeps every event in order |
| MemLog.WriteLayoutFlatten | src/memlog.cpp:38-55 | the chunks of one drain, concatenated in order, are exactly the list that was drained |
| MemLog.WriteLayoutCounts | src/memlog.cpp:41-55 | one drain makes `len / BUF_LEN` writes of exactly `BUF_LEN` events, then exactly one more write of `len % BUF_LEN` events, even when that is 0 |
| MemLog.ThreadState.constructor | include/mytls.hpp:11-20 | a thread starts with an empty event list and nothing written |
| MemLog.ThreadState.WriteEvents | src/memlog.cpp:31-57 | the list ends empty, the log gains exactly the chunks of the drain layout, and what was written followed by what is listed is still everything captured |
| MemLog.ThreadState.ThreadFini | src/memlog.cpp:65-71 | after the drain the list is empty, as the hook asserts, and everything the thread captured has been written, in order |
| MemLog.ThreadState.MallocBefore | src/memlog.cpp:73-76 | only the cached size changes, to the requested size, and the invariant `Valid()` is kept |
| MemLog.ThreadState.MallocAfter | src/memlog.cpp:78-81 | exactly one malloc event is appended, with the returned address (null included), the cached size cut to 32 bits and the thread's id |
| MemLog.ThreadState.FreeHook | src/memlog.cpp:83-86 | exactly one free event with size 0 is appended for any pointer, null included |
| MemLog.ThreadState.ReadsMem | src/memlog.cpp:88-98 | a draw below `THRESHOLD` changes nothing; otherwise exactly one read event is captured, and the list is drained when it reaches `MAX_SIZE`, so afterwards it holds fewer than `MAX_SIZE` events |
| MemLog.ThreadState.WritesMem | src/memlog.cpp:100-106 | a draw below `THRESHOLD` changes nothing; otherwise exactly one write event is appended, and the list is never drained here |
| CtStats.IsLog | tools/ctstats.cpp:10-15 | a record is a log record exactly when its discriminant is one of the four kinds |
| CtStats.NumEvents | tools/ctstats.cpp:28 | the record count is the file size divided by the record size, rounded down, so a partial trailing record is ignored |
| CtStats.CountsSum | tools/ctstats.cpp:33-36 | over records that are all of the four kinds, the four per-kind counts add up to the number of records |
| CtStats.Summarize | tools/ctstats.cpp:17-40 | stops at the first record that is not a log record; otherwise `stats[k]` counts the records at positions 1..n-1 of kind k, the first record is never counted (the counters sum to n - 1), and the log is multithreaded exactly when some later record has another thread id than the first |
| TestTime.NonDecreasingOrdered | test/testtime.cpp:11-19 | checking adjacent pairs, as the loop does, is the same as every timestamp being at most every later one |
| TestTime.Check | test/testtime.cpp:7-24 | fails at the first index where a timestamp exceeds the next one, with all earlier pairs ordered; succeeds exactly when the timestamps never decrease, the same check test/test_time.py makes, and then the first timestamp is at most the last |

## Left out

- Pin instrumentation glue (`Instruction`, `Image`, `Fini`, `main`, `ThreadStart`, TLS keys; src/memlog.cpp:59-63, 108-195): calls into a foreign library. The thread state is created with `ThreadState`'s constructor instead.
- Pin's unwinder (`PIN_Backtrace`, `PIN_GetSourceLocation`, `PIN_LockClient`): `SetTrace` receives the resolved frames as an argument.
- Backtraces.Backtrace.SetTrace: requires at most `maxDepth + 1` frames, which is the buffer size the source passes to the unwinder.
- `write(2)`, lock `fdLock`, and the asserts on their results: I/O and concurrency. Every write is an append to the ghost log `written`, and a write is taken to write everything it is given.
- `rand_r` and the seed read from `/dev/urandom` (include/mytls.hpp:12-18): randomness. The sampling hooks receive the draw as the argument `draw`.
- Timestamps: the hooks at src/memlog.cpp:80,85,94,105 pass no timestamp to the `Event` constructor, which takes one (see above), so the hooks take it as a parameter.
- include/parse.hpp, tools/printevents.cpp and tools/parse.py are not part of this model: they are file and mmap readers and printers. Their `isLog` is the same as `CtStats.IsLog`. `parseEvents` builds `vector(numEvents)` and then appends, so its result starts with `numEvents` default records; `TestTime.Check` is stated over the records it is given.
- The raw binary layout of a record (`sizeof(Event)`, padding, pointer width) is platform ABI. The model works on records, not bytes, and `NumEvents` takes the record size as a parameter.
- `new`/`delete`, the leaked `trace` array (include/backtrace.hpp:74-77), and the shallow copy the implicit copy constructor makes (include/event.hpp:33): manual memory management. Backtraces inside events are value sequences.
- The C-style downcast `(AllocationEvent&) e` in the serialiser (include/event.hpp:51) is replaced by a sum type in which only malloc and free carry a backtrace.
- Events.AllocationEvent: built with a read or write kind, the source object still holds its backtrace, although the serialiser never writes it. The model drops it.
- Events.AccessEvent: requires a read or write kind. The source accepts any `char`, but serialising an access event of kind malloc or free then reads a backtrace the object does not have.
- Backtraces.Backtrace.constructor: takes `maxDepth` as a `nat`. In the source `BacktraceParams::maxDepth` is an `INT32` (include/backtrace.hpp:12), and a negative value would make `new` throw and give `SetTrace`'s buffer of `maxDepth + 1` frames a size of zero or less; the model excludes that configuration.
- Backtraces.Backtrace.Assign: requires both traces to have the same length. Every trace has `maxDepth` entries, one value for the whole process (include/backtrace.hpp:11-13), which the model does not keep as a global.
- CtStats.Summarize: requires at least one record. For an empty file the first `read` leaves the record uninitialised, which is undefined behaviour.
- CtStats.Summarize: the `size_t` counters are unbounded naturals, and the `int` loop index is not wrapped past 2^31 records.
- TestTime.Check: requires at least one record, because `size() - 1` is unsigned and would wrap, and `front()`/`back()` need an element.
- TestTime.Check: the loop index is a natural. In the source it is an `int` compared against the unsigned `size() - 1` (test/testtime.cpp:11), so a log of 2^31 records or more is outside what the model covers.
- Events.Serialize: covers the four kinds only. The source writes a record whose `_action` is outside 0..3 as `{"type":n,...}` with that number and no backtrace; the typed event of the model cannot hold such a record.
- JSON strings: there is no byte or UTF-8 encoding. Paths are `seq<char>`, and the round trips hold for paths without `"`, `\` or control characters (section 7 of RFC 8259), since the source does not escape them. `RenderRoundTrip` shows that this condition is also necessary, and `PathForgesEntries` shows that a path holding `","line":…},{"path":"` makes one entry read back as two when the two halves are non-empty and need no escaping.
- Sorting events, geometric skip sampling (`_geom`, declared at include/mytls.hpp:21 and never used), suppressing null malloc results or null frees, and querying usable sizes: src/memlog.cpp and include/mytls.hpp do none of these, so the model does not either.
