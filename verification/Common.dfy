/** Types shared by every module: optional values, fallible results, tokens. */
module Common {
  datatype Option<+T> = None | Some(value: T)

  /** A call that may fail with a message, as the source's `Result`. */
  datatype Result<+T> = Ok(value: T) | Err(why: string)

  /** A model token: a signed 32-bit integer. */
  type Token = t: int | -0x8000_0000 <= t < 0x8000_0000

  function Min(a: int, b: int): int {
    if a <= b then a else b
  }

  function Max(a: int, b: int): int {
    if a <= b then b else a
  }

  function Pow2(n: nat): (p: nat)
    ensures p >= 1
  {
    if n == 0 then 1 else 2 * Pow2(n - 1)
  }

  lemma Assoc<T>(a: seq<T>, b: seq<T>, c: seq<T>)
    ensures a + b + c == a + (b + c)
  {
  }
}
