/** The vocabulary every other module shares: octets, optional values and the
    library's status codes. */
module Bytes {

  type Byte = bv8

  const LF: Byte := 0x0A
  const CR: Byte := 0x0D
  const SPACE: Byte := 0x20
  const COLON: Byte := 0x3A

  const SIZE_MAX: nat := 0xFFFF_FFFF_FFFF_FFFF
  const UINT64_MAX: nat := 0xFFFF_FFFF_FFFF_FFFF
  /** SICHA_INFINITE for timeouts, SICHA_DISABLED for policy fields. */
  const NO_LIMIT: nat := 0xFFFF_FFFF

  type Size = n: nat | n <= SIZE_MAX
  type U64 = n: nat | n <= UINT64_MAX
  type U32 = n: nat | n <= NO_LIMIT

  datatype Option<+T> = None | Some(value: T)

  /** sicha_status, with the internal SICHA_INT_E_TOOBIG. */
  datatype Status =
    | Ok
    | InvalidArg
    | NoMem
    | Aborted
    | Exhausted
    | Cancelled
    | StreamLost
    | TooBig

  function Concat<T>(parts: seq<seq<T>>): (r: seq<T>)
  {
    if parts == [] then [] else parts[0] + Concat(parts[1..])
  }

  function Min(a: int, b: int): (r: int)
    ensures r <= a && r <= b && (r == a || r == b)
  {
    if a < b then a else b
  }

  function Max(a: int, b: int): (r: int)
    ensures r >= a && r >= b && (r == a || r == b)
  {
    if a < b then b else a
  }

  /** b blocks of k, by repeated addition. */
  function Times(b: nat, k: nat): (r: nat)
  {
    if b == 0 then 0 else Times(b - 1, k) + k
  }

  lemma {:induction false} TimesIsProduct(b: nat, k: nat)
    ensures Times(b, k) == b * k
  {
    if b > 0 {
      TimesIsProduct(b - 1, k);
    }
  }

  lemma {:induction false} TimesMonotone(b: nat, n: nat, k: nat)
    requires b < n
    ensures Times(b, k) + k <= Times(n, k)
    decreases n
  {
    if b + 1 < n {
      TimesMonotone(b, n - 1, k);
    }
  }
}
