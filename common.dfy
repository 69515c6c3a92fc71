/** Shared vocabulary: an Option type, the C++ integer widths the event
    records use, and flattening of a list of chunks. */
module Common {

  datatype Option<+T> = None | Some(value: T)

  /** `unsigned int` on the platforms Pin supports. */
  type u32 = x: int | 0 <= x < 0x1_0000_0000
  /** `size_t`, `ADDRINT` and pointer values. */
  type u64 = x: int | 0 <= x < 0x1_0000_0000_0000_0000
  /** `INT32`, the line number of a source location. */
  type i32 = x: int | -0x8000_0000 <= x < 0x8000_0000
  /** `char`, the event discriminant; signed on x86 and ARM Linux ABIs Pin targets. */
  type char8 = x: int | -0x80 <= x < 0x80

  /** Conversion of a `size_t` to `unsigned int`: the value modulo 2^32. */
  function ToU32(x: u64): (r: u32)
    ensures x < 0x1_0000_0000 ==> r == x
    ensures (r - x) % 0x1_0000_0000 == 0
  {
    x % 0x1_0000_0000
  }

  /** The concatenation of chunks, in order. */
  function Flatten<T>(chunks: seq<seq<T>>): seq<T>
  {
    if chunks == [] then [] else chunks[0] + Flatten(chunks[1..])
  }

  lemma {:induction false} FlattenAppend<T>(a: seq<seq<T>>, b: seq<seq<T>>)
    ensures Flatten(a + b) == Flatten(a) + Flatten(b)
  {
    if a != [] {
      assert (a + b)[1..] == a[1..] + b;
      FlattenAppend(a[1..], b);
    } else {
      assert a + b == b;
    }
  }

  lemma FlattenSingle<T>(c: seq<T>)
    ensures Flatten([c]) == c
  {
    assert [c][1..] == [];
  }
}
