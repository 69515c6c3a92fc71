/** The event record (include/event.hpp): the kind discriminant, the fixed
    binary record every tool reads and writes, the typed event that carries a
    backtrace only for malloc and free, and its JSON object rendering. */
module Events {
  import opened Common
  import opened JsonText
  import opened Backtraces

  /** `EventTypes`, in declaration order. */
  datatype EventType = Malloc | Free | Read | Write

  /** The enumerator's value, as stored in `_action`. */
  function Code(k: EventType): (c: char8)
    ensures 0 <= c < 4
  {
    match k
    case Malloc => 0
    case Free => 1
    case Read => 2
    case Write => 3
  }

  /** The kind a stored discriminant denotes, if any. */
  function KindOf(action: char8): (r: Option<EventType>)
    ensures r.Some? <==> 0 <= action < 4
    ensures r.Some? ==> Code(r.value) == action
  {
    if action == 0 then Some(Malloc)
    else if action == 1 then Some(Free)
    else if action == 2 then Some(Read)
    else if action == 3 then Some(Write)
    else None
  }

  /** The class `Event`: the fixed-size record that memlog writes to its
      binary log and the offline tools read back. Its five-argument
      constructor stores the arguments unchanged. */
  datatype Event = Event(action: char8, addr: u64, size: u32, threadId: u32, timestamp: u32)

  /** `Event` with its subclasses `AllocationEvent` and `AccessEvent`: only
      the malloc and free variants carry a backtrace. */
  datatype TypedEvent =
    | MallocEvent(addr: u64, size: u32, threadId: u32, timestamp: u32, backtrace: seq<Location>)
    | FreeEvent(addr: u64, size: u32, threadId: u32, timestamp: u32, backtrace: seq<Location>)
    | ReadEvent(addr: u64, size: u32, threadId: u32, timestamp: u32)
    | WriteEvent(addr: u64, size: u32, threadId: u32, timestamp: u32)
  {
    function Type(): EventType
    {
      match this
      case MallocEvent(_, _, _, _, _) => Malloc
      case FreeEvent(_, _, _, _, _) => Free
      case ReadEvent(_, _, _, _) => Read
      case WriteEvent(_, _, _, _) => Write
    }

    predicate HasBacktrace()
    {
      MallocEvent? || FreeEvent?
    }

    /** The `Event` part of the object. */
    function Base(): Event
    {
      Event(Code(Type()), addr, size, threadId, timestamp)
    }
  }

  /** Builds a typed event from its kind and fields. */
  function Make(action: EventType, addr: u64, size: u32, threadId: u32, timestamp: u32, backtrace: seq<Location>): TypedEvent
  {
    match action
    case Malloc => MallocEvent(addr, size, threadId, timestamp, backtrace)
    case Free => FreeEvent(addr, size, threadId, timestamp, backtrace)
    case Read => ReadEvent(addr, size, threadId, timestamp)
    case Write => WriteEvent(addr, size, threadId, timestamp)
  }

  /** `AllocationEvent(action, addr, size, threadId, timestamp, backtrace)`:
      the base fields are stored unchanged, and a malloc or free event keeps
      the backtrace it was given. The serialiser writes a backtrace only for
      malloc and free, so for any other action the backtrace is dropped. */
  function AllocationEvent(action: EventType, addr: u64, size: u32, threadId: u32, timestamp: u32, backtrace: seq<Location>): (e: TypedEvent)
    ensures e.Base() == Event(Code(action), addr, size, threadId, timestamp)
    ensures e.Type() == action
    ensures e.HasBacktrace() <==> action == Malloc || action == Free
    ensures e.HasBacktrace() ==> e.backtrace == backtrace
  {
    Make(action, addr, size, threadId, timestamp, backtrace)
  }

  /** `AccessEvent(action, addr, size, threadId, timestamp)`, for reads and
      writes: the fields are stored unchanged and no backtrace is attached. */
  function AccessEvent(action: EventType, addr: u64, size: u32, threadId: u32, timestamp: u32): (e: TypedEvent)
    requires action == Read || action == Write
    ensures e.Base() == Event(Code(action), addr, size, threadId, timestamp)
    ensures !e.HasBacktrace()
  {
    Make(action, addr, size, threadId, timestamp, [])
  }

  /** `key` and a number in decimal, followed by `tail`. */
  function Field(key: string, n: int, tail: string): string
  {
    key + (Decimal(n) + tail)
  }

  /** What follows the common fields: the `"backtrace"` member for malloc and
      free, then the closing brace. */
  function EndJson(e: TypedEvent): string
  {
    (if e.HasBacktrace() then ",\"backtrace\":" + Render(e.backtrace) else "") + "}"
  }

  /** `operator<<` on an Event: the JSON object of one event, its fields in
      the order type, addr, size, tid, time. */
  function Serialize(e: TypedEvent): (r: string)
    ensures |r| > 0 && r[0] == '{' && r[|r| - 1] == '}'
  {
    Field("{\"type\":", Code(e.Type()), AfterType(e))
  }

  /** The text after each of the common fields. */
  function AfterType(e: TypedEvent): string { Field(",\"addr\":", e.addr, AfterAddr(e)) }
  function AfterAddr(e: TypedEvent): string { Field(",\"size\":", e.size, AfterSize(e)) }
  function AfterSize(e: TypedEvent): string { Field(",\"tid\":", e.threadId, AfterTid(e)) }
  function AfterTid(e: TypedEvent): string { Field(",\"time\":", e.timestamp, EndJson(e)) }

  /** The event as the JSON reads it back: unresolved backtrace entries lose
      their line. */
  function NormalEvent(e: TypedEvent): TypedEvent
  {
    if e.HasBacktrace() then e.(backtrace := Normalized(e.backtrace)) else e
  }

  /** Reads `key` followed by a natural number below `bound`. */
  function ParseField(key: string, bound: nat, s: string): (r: Option<(nat, string)>)
    ensures r.Some? ==> r.value.0 < bound
  {
    match Lit(key, s)
    case None => None
    case Some(s1) =>
      match ParseNat(s1)
      case None => None
      case Some((v, s2)) => if v < bound then Some((v, s2)) else None
  }

  /** Reads the rest of an event object after its common fields. */
  function ParseEnd(k: EventType, addr: u64, size: u32, tid: u32, time: u32, s: string): Option<(TypedEvent, string)>
  {
    if k == Malloc || k == Free then
      match Lit(",\"backtrace\":", s)
      case None => None
      case Some(s1) =>
        match ParseTrace(s1)
        case None => None
        case Some((bt, s2)) =>
          match Lit("}", s2)
          case None => None
          case Some(s3) => Some((Make(k, addr, size, tid, time, bt), s3))
    else
      match Lit("}", s)
      case None => None
      case Some(s1) => Some((Make(k, addr, size, tid, time, []), s1))
  }

  /** Reads one event object as the tool writes it. */
  function ParseEvent(s: string): Option<(TypedEvent, string)>
  {
    match ParseField("{\"type\":", 4, s)
    case None => None
    case Some((code, s1)) =>
      match ParseField(",\"addr\":", 0x1_0000_0000_0000_0000, s1)
      case None => None
      case Some((addr, s2)) =>
        match ParseField(",\"size\":", 0x1_0000_0000, s2)
        case None => None
        case Some((size, s3)) =>
          match ParseField(",\"tid\":", 0x1_0000_0000, s3)
          case None => None
          case Some((tid, s4)) =>
            match ParseField(",\"time\":", 0x1_0000_0000, s4)
            case None => None
            case Some((time, s5)) =>
              match KindOf(code)
              case None => None
              case Some(k) => ParseEnd(k, addr, size, tid, time, s5)
  }

  lemma FieldRoundTrip(key: string, bound: nat, n: nat, rest: string)
    requires n < bound && Delimits(rest)
    ensures ParseField(key, bound, Field(key, n, rest)) == Some((n, rest))
  {
    LitRoundTrip(key, Decimal(n) + rest);
    DecimalNatRoundTrip(n, rest);
  }

  lemma EndRoundTrip(e: TypedEvent)
    requires e.HasBacktrace() ==> PathsSafe(e.backtrace)
    ensures ParseEnd(e.Type(), e.addr, e.size, e.threadId, e.timestamp, EndJson(e))
         == Some((NormalEvent(e), ""))
  {
    if e.HasBacktrace() {
      var r := Render(e.backtrace);
      assert EndJson(e) == ",\"backtrace\":" + (r + ("}" + ""));
      LitRoundTrip(",\"backtrace\":", r + ("}" + ""));
      RenderRoundTrip(e.backtrace, "}" + "");
      LitRoundTrip("}", "");
    } else {
      assert EndJson(e) == "}" + "";
      LitRoundTrip("}", "");
    }
  }

  lemma ParseEventFields(s: string, k: EventType, code: nat, addr: u64, size: u32, tid: u32, time: u32,
                         s1: string, s2: string, s3: string, s4: string, s5: string)
    requires code < 4
    requires ParseField("{\"type\":", 4, s) == Some((code, s1))
    requires ParseField(",\"addr\":", 0x1_0000_0000_0000_0000, s1) == Some((addr, s2))
    requires ParseField(",\"size\":", 0x1_0000_0000, s2) == Some((size, s3))
    requires ParseField(",\"tid\":", 0x1_0000_0000, s3) == Some((tid, s4))
    requires ParseField(",\"time\":", 0x1_0000_0000, s4) == Some((time, s5))
    requires KindOf(code) == Some(k)
    ensures ParseEvent(s) == ParseEnd(k, addr, size, tid, time, s5)
  {
  }

  lemma TypeFieldRoundTrip(e: TypedEvent)
    ensures ParseField("{\"type\":", 4, Serialize(e)) == Some((Code(e.Type()) as nat, AfterType(e)))
  {
    FieldRoundTrip("{\"type\":", 4, Code(e.Type()), AfterType(e));
  }

  lemma AddrFieldRoundTrip(e: TypedEvent)
    ensures ParseField(",\"addr\":", 0x1_0000_0000_0000_0000, AfterType(e)) == Some((e.addr as nat, AfterAddr(e)))
  {
    FieldRoundTrip(",\"addr\":", 0x1_0000_0000_0000_0000, e.addr, AfterAddr(e));
  }

  lemma SizeFieldRoundTrip(e: TypedEvent)
    ensures ParseField(",\"size\":", 0x1_0000_0000, AfterAddr(e)) == Some((e.size as nat, AfterSize(e)))
  {
    FieldRoundTrip(",\"size\":", 0x1_0000_0000, e.size, AfterSize(e));
  }

  lemma TidFieldRoundTrip(e: TypedEvent)
    ensures ParseField(",\"tid\":", 0x1_0000_0000, AfterSize(e)) == Some((e.threadId as nat, AfterTid(e)))
  {
    FieldRoundTrip(",\"tid\":", 0x1_0000_0000, e.threadId, AfterTid(e));
  }

  lemma TimeFieldRoundTrip(e: TypedEvent)
    ensures ParseField(",\"time\":", 0x1_0000_0000, AfterTid(e)) == Some((e.timestamp as nat, EndJson(e)))
  {
    var s5 := EndJson(e);
    assert s5[0] == ',' || s5[0] == '}';
    FieldRoundTrip(",\"time\":", 0x1_0000_0000, e.timestamp, s5);
  }

  lemma KindOfCode(k: EventType)
    ensures KindOf(Code(k)) == Some(k)
  {
  }

  /** Every event reads back from its JSON object with its kind, its five
      fields in the order type, addr, size, tid, time, and a backtrace exactly
      for malloc and free, whenever no backtrace path needs escaping. */
  lemma SerializeRoundTrip(e: TypedEvent)
    requires e.HasBacktrace() ==> PathsSafe(e.backtrace)
    ensures ParseEvent(Serialize(e)) == Some((NormalEvent(e), ""))
  {
    TypeFieldRoundTrip(e);
    AddrFieldRoundTrip(e);
    SizeFieldRoundTrip(e);
    TidFieldRoundTrip(e);
    TimeFieldRoundTrip(e);
    KindOfCode(e.Type());
    ParseEventFields(Serialize(e), e.Type(), Code(e.Type()), e.addr, e.size, e.threadId, e.timestamp,
                     AfterType(e), AfterAddr(e), AfterSize(e), AfterTid(e), EndJson(e));
    EndRoundTrip(e);
  }
}
