/** Vocabulary shared by every module: optional values, Go's fixed-width integer
    bounds and the classification of a local write result. */
module Base {

  datatype Option<+T> = None | Some(value: T)

  const MAX_UINT16: nat := 0xFFFF
  const MAX_UINT32: nat := 0xFFFF_FFFF
  const MAX_INT64: nat := 0x7FFF_FFFF_FFFF_FFFF
  const MAX_UINT64: nat := 0xFFFF_FFFF_FFFF_FFFF
  const UINT32_MODULUS: nat := 0x1_0000_0000

  /** Go's uint64: clocks, sizes and ordinals. */
  type uint64 = x: nat | x <= MAX_UINT64

  /** The complete partition of a local write result (n, err). */
  datatype WriteClass = WriteFull | WriteShortNil | WriteZeroNil | WriteShortError | WriteZeroError
                      | WriteFullError | WriteInvalid

  /** ClassifyWrite: `failed` says whether the transport also returned an error. */
  function ClassifyWrite(n: int, length: int, failed: bool): (result: WriteClass)
    ensures result == WriteInvalid <==> !(0 <= n <= length)
    ensures result == WriteFull <==> 0 <= n == length && !failed
    ensures result != WriteInvalid ==> (failed <==> result in {WriteFullError, WriteZeroError, WriteShortError})
  {
    if length < 0 || n < 0 || n > length then WriteInvalid
    else if n == length && !failed then WriteFull
    else if n == length then WriteFullError
    else if n == 0 && !failed then WriteZeroNil
    else if n == 0 then WriteZeroError
    else if !failed then WriteShortNil
    else WriteShortError
  }

  function Sum(xs: seq<nat>): nat
  {
    if xs == [] then 0 else Sum(xs[..|xs| - 1]) + xs[|xs| - 1]
  }

  lemma {:induction false} SubsetSize<T>(a: set<T>, b: set<T>)
    requires a <= b
    ensures |a| <= |b|
  {
    if a != {} {
      var x :| x in a;
      SubsetSize(a - {x}, b - {x});
    }
  }
}
