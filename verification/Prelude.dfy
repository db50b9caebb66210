/** Small definitions every component shares. */
module Prelude {

  datatype Option<+T> = None | Some(value: T)

  type Byte = b: int | 0 <= b < 0x100

  /** Error numbers of the UAPI. */
  const EIO: nat := 5
  const E2BIG: nat := 7
  const EINVAL: nat := 22
  const EPROTO: nat := 71
  const EOVERFLOW: nat := 75

  predicate Lacks(s: string, c: char) { forall i :: 0 <= i < |s| ==> s[i] != c }

  function Min(a: int, b: int): (m: int)
    ensures m <= a && m <= b && (m == a || m == b)
  {
    if a <= b then a else b
  }
}
