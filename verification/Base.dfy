/** Small datatypes shared by the other modules. */
module Base {
  datatype Option<+T> = None | Some(value: T)

  datatype Result<+T, +E> = Ok(value: T) | Err(error: E)

  type Byte = b: int | 0 <= b < 256

  type Bytes = seq<Byte>

  /** All the messages of `ms`, one after the other. */
  function Concat(ms: seq<Bytes>): Bytes {
    if ms == [] then [] else Concat(ms[..|ms| - 1]) + ms[|ms| - 1]
  }

  lemma ConcatPush(ms: seq<Bytes>, m: Bytes)
    ensures Concat(ms + [m]) == Concat(ms) + m
  {
    assert (ms + [m])[..|ms|] == ms;
  }

  lemma {:induction false} ConcatPrefix(a: seq<Bytes>, b: seq<Bytes>)
    requires a <= b
    ensures Concat(a) <= Concat(b)
    decreases |b|
  {
    if a != b {
      ConcatPrefix(a, b[..|b| - 1]);
    }
  }
}
