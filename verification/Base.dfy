/** Shared vocabulary: optional values, results and bytes. */
module Base {

  datatype Option<+T> = None | Some(value: T)

  datatype Result<+T, +E> = Ok(value: T) | Err(error: E)

  newtype byte = b: int | 0 <= b < 256

  const U64 := 0x1_0000_0000_0000_0000
  const U32 := 0x1_0000_0000
  const U16 := 0x1_0000

  /** Sequences concatenate in any grouping. */
  lemma Assoc<T>(a: seq<T>, b: seq<T>, c: seq<T>)
    ensures (a + b) + c == a + (b + c)
  {}
}
