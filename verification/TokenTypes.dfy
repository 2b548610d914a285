/** Constants and small datatypes shared by the token-cache modules. */
module TokenTypes {
  const PAGE_SIZE: nat := 64
  const MISSING: int := 0x7fff_ffff
  const PRIORITY_LIMIT: nat := 9_000_000

  /** One fixed-width cache record: a row of raw words. */
  datatype Record = Record(words: seq<int>)

  datatype Option<+T> = None | Some(value: T)

  /** The arena cell a page table names for a position. */
  function Cell(pages: seq<nat>, q: nat): nat
    requires q / PAGE_SIZE < |pages|
  {
    pages[q / PAGE_SIZE] * PAGE_SIZE + q % PAGE_SIZE
  }

  /** Whole pages that hold a number of tokens. */
  function PagesFor(tokens: nat): (n: nat)
    ensures tokens > 0 ==> n > 0
  {
    (tokens + PAGE_SIZE - 1) / PAGE_SIZE
  }

  function Min(a: nat, b: nat): nat { if a <= b then a else b }

  function Max(a: nat, b: nat): nat { if a >= b then a else b }
}
