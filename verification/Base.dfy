/** Shared result types and the integer range of the OCaml runtime. */
module Base {
  datatype Option<+T> = None | Some(value: T)

  datatype Result<+T, +E> = Ok(value: T) | Error(error: E) {
    predicate IsFailure() {
      Error?
    }

    function PropagateFailure<U>(): Result<U, E>
      requires Error?
    {
      Error(error)
    }

    function Extract(): T
      requires Ok?
    {
      value
    }
  }

  /** `Stdlib.max_int` of the 63-bit OCaml integers. */
  const MAX_INT: int := 0x3FFF_FFFF_FFFF_FFFF

  type int63 = n: int | -MAX_INT - 1 <= n <= MAX_INT

  /** The sum of two machine integers, wrapped as the runtime wraps it. */
  function WrapAdd(a: int63, b: nat): (r: int63)
    requires b <= MAX_INT
    ensures a + b <= MAX_INT ==> r == a + b
    ensures a + b > MAX_INT ==> r < 0
  {
    if a + b > MAX_INT then a + b - 2 * (MAX_INT + 1) else a + b
  }

  /** `List.rev`. */
  function Reverse<T>(s: seq<T>): (r: seq<T>)
    ensures |r| == |s|
    ensures forall i :: 0 <= i < |s| ==> r[i] == s[|s| - 1 - i]
    ensures forall x <- r :: x in s
    ensures forall x <- s :: x in r
  {
    if s == [] then [] else Reverse(s[1..]) + [s[0]]
  }
}
