/** The shared 32-bit outstanding-request counter: atomic adds wrap around. */
module Counter {
  import opened Json

  const MODULUS := 0x1_0000_0000
  const SENTINEL: u32 := 0xFFFF_FFFF

  function Up(c: u32): u32 {
    if c == SENTINEL then 0 else c + 1
  }

  function Down(c: u32): u32 {
    if c == 0 then SENTINEL else c - 1
  }

  function DownBy(c: u32, n: nat): u32 {
    if n == 0 then c else Down(DownBy(c, n - 1))
  }

  /** The 32-bit reading of a mathematical count. */
  function Wrap(x: int): u32
    decreases x < 0, if x < 0 then -x else x
  {
    if x < 0 then Wrap(x + MODULUS) else if x >= MODULUS then Wrap(x - MODULUS) else x
  }

  /** Wrapping is reduction modulo 2^32. */
  lemma {:induction false} WrapIsMod(x: int)
    ensures Wrap(x) == x % MODULUS
    decreases x < 0, if x < 0 then -x else x
  {
    if x < 0 {
      WrapIsMod(x + MODULUS);
    } else if x >= MODULUS {
      WrapIsMod(x - MODULUS);
    }
  }

  lemma UpReads(c: u32, x: int, y: int)
    requires c == Wrap(x) && y == x + 1
    ensures Up(c) == Wrap(y)
  {
    WrapIsMod(x);
    WrapIsMod(y);
  }

  lemma DownReads(c: u32, x: int, y: int)
    requires c == Wrap(x) && y == x - 1
    ensures Down(c) == Wrap(y)
  {
    WrapIsMod(x);
    WrapIsMod(y);
  }

  /** Counting down `n` times, wrapping whenever zero is passed, is one subtraction modulo 2^32. */
  lemma {:induction false} DownByReads(c: u32, x: int, n: nat, y: int)
    requires c == Wrap(x) && y == x - n
    ensures DownBy(c, n) == Wrap(y)
  {
    if n == 0 {
    } else {
      DownByReads(c, x, n - 1, y + 1);
      DownReads(DownBy(c, n - 1), y + 1, y);
    }
  }

  /** An offset is invisible exactly when it is a multiple of 2^32. */
  lemma OffsetVanishes(x: int, d: int)
    ensures Wrap(x + d) == Wrap(x) <==> d % MODULUS == 0
  {
    WrapIsMod(x);
    WrapIsMod(x + d);
  }
}
