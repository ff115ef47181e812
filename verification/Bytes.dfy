/** Bytes, machine-word bounds and the small helpers every other module uses. */
module Bytes {

  type byte = n: nat | n < 256

  /**
   * `CHUNK_SIZE` of the deque of buffers. Where it is a factor or a divisor the number itself is
   * written, which keeps the arithmetic linear.
   */
  const CHUNK_SIZE: nat := 4096

  /** Largest value of a 64-bit `usize`. */
  const USIZE_MAX: nat := 0xFFFF_FFFF_FFFF_FFFF

  datatype Option<+T> = None | Some(value: T) {
    predicate IsFailure() {
      None?
    }

    function PropagateFailure<U>(): Option<U>
      requires None?
    {
      None
    }

    function Extract(): T
      requires Some?
    {
      value
    }
  }

  function Min(a: nat, b: nat): nat {
    if a <= b then a else b
  }

  function Max(a: nat, b: nat): nat {
    if a <= b then b else a
  }

  /** First chunk boundary at or after `n`. */
  function ChunkCeil(n: nat): (c: nat)
    ensures n <= c < n + CHUNK_SIZE && c % 4096 == 0
  {
    (n + CHUNK_SIZE - 1) / 4096 * 4096
  }

  /** Last chunk boundary at or before `n`. */
  function ChunkFloor(n: nat): (c: nat)
    ensures c <= n < c + CHUNK_SIZE && c % 4096 == 0
  {
    n / 4096 * 4096
  }
}
