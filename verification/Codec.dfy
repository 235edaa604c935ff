/** Request ids: a hexadecimal prefix made when the allocator is, and a 64-bit count. */
module Codec {
  import opened Wrappers
  import opened Json

  type u8 = x: int | 0 <= x < 0x100
  type u64 = x: int | 0 <= x < 0x1_0000_0000_0000_0000

  const WRAPAROUND := 0x1_0000_0000_0000_0000

  // ---- printing -------------------------------------------------------------

  const HEX_DIGITS := "0123456789abcdef"

  function HexByte(b: u8): string {
    [HEX_DIGITS[b / 16], HEX_DIGITS[b % 16]]
  }

  function Hex(bytes: seq<u8>): string {
    if bytes == [] then "" else Hex(bytes[..|bytes| - 1]) + HexByte(bytes[|bytes| - 1])
  }

  function Decimal(n: nat): string {
    if n < 10 then [HEX_DIGITS[n]] else Decimal(n / 10) + [HEX_DIGITS[n % 10]]
  }

  /** The bytes of `n` from the least significant on. */
  function LittleEndian(n: nat, count: nat): (bytes: seq<u8>)
    ensures |bytes| == count
  {
    if count == 0 then [] else [n % 0x100] + LittleEndian(n / 0x100, count - 1)
  }

  function PrefixText(nanos: u32, pid: u32): string {
    Hex(LittleEndian(nanos, 4) + LittleEndian(pid, 2))
  }

  function IdText(prefix: string, n: nat): string {
    prefix + "-" + Decimal(n)
  }

  /** Copies the low bytes of `n` into a stretch of the buffer. */
  method StoreBytes(buffer: array<u8>, at: nat, count: nat, n: nat)
    requires at + count <= buffer.Length
    modifies buffer
    ensures buffer[at..at + count] == LittleEndian(n, count)
    ensures buffer[..at] == old(buffer[..at])
    ensures buffer[at + count..] == old(buffer[at + count..])
  {
    var rest := n;
    for i := 0 to count
      invariant 0 <= rest
      invariant buffer[at..at + i] + LittleEndian(rest, count - i) == LittleEndian(n, count)
      invariant buffer[..at] == old(buffer[..at])
      invariant buffer[at + count..] == old(buffer[at + count..])
    {
      ghost var written := buffer[at..at + i];
      buffer[at + i] := rest % 0x100;
      assert buffer[at..at + i + 1] == written + [rest % 0x100];
      rest := rest / 0x100;
    }
  }

  method PrintHex(buffer: array<u8>) returns (text: string)
    ensures text == Hex(buffer[..])
  {
    text := "";
    for i := 0 to buffer.Length
      invariant text == Hex(buffer[..i])
    {
      assert buffer[..i + 1][..i] == buffer[..i];
      text := text + HexByte(buffer[i]);
    }
    assert buffer[..buffer.Length] == buffer[..];
  }

  // ---- the allocator --------------------------------------------------------

  class IdAllocator {
    var prefix: string
    var counter: u64

    /** `clock` is the sub-second part of the time, or nothing when the clock is before the epoch. */
    constructor (clock: Option<u32>, pid: u32)
      ensures prefix == PrefixText(if clock.Some? then clock.value else 0, pid)
      ensures counter == 0
    {
      var bytes: array<u8> := new u8[6](_ => 0);
      StoreBytes(bytes, 0, 4, if clock.Some? then clock.value else 0);
      assert bytes[..4] == bytes[0..4];
      StoreBytes(bytes, 4, 2, pid);
      assert bytes[..4] == bytes[0..4];
      var text := PrintHex(bytes);
      assert bytes[..] == bytes[0..4] + bytes[4..6];
      prefix := text;
      counter := 0;
    }

    method Next() returns (id: string)
      modifies this`counter
      ensures id == IdText(prefix, old(counter))
      ensures counter == (old(counter) + 1) % WRAPAROUND
    {
      id := IdText(prefix, counter);
      counter := if counter == WRAPAROUND - 1 then 0 else counter + 1;
    }
  }

  // ---- what the texts determine ---------------------------------------------

  predicate IsHex(s: string) {
    forall i :: 0 <= i < |s| ==> s[i] in HEX_DIGITS
  }

  lemma DigitsDiffer(a: nat, b: nat)
    requires a < 16 && b < 16 && HEX_DIGITS[a] == HEX_DIGITS[b]
    ensures a == b
  {
  }

  lemma {:induction false} HexShape(bytes: seq<u8>)
    ensures |Hex(bytes)| == 2 * |bytes| && IsHex(Hex(bytes))
  {
    if bytes == [] {
    } else {
      HexShape(bytes[..|bytes| - 1]);
    }
  }

  lemma HexByteInjective(x: u8, y: u8)
    requires HexByte(x) == HexByte(y)
    ensures x == y
  {
    assert HexByte(x)[0] == HexByte(y)[0] && HexByte(x)[1] == HexByte(y)[1];
    DigitsDiffer(x / 16, y / 16);
    DigitsDiffer(x % 16, y % 16);
  }

  lemma {:induction false} HexInjective(a: seq<u8>, b: seq<u8>)
    requires Hex(a) == Hex(b)
    ensures a == b
  {
    HexShape(a);
    HexShape(b);
    if a == [] {
    } else {
      var s, n := Hex(a), 2 * |a| - 2;
      HexShape(a[..|a| - 1]);
      HexShape(b[..|b| - 1]);
      assert s[..n] == Hex(a[..|a| - 1]) && s[n..] == HexByte(a[|a| - 1]);
      assert s[..n] == Hex(b[..|b| - 1]) && s[n..] == HexByte(b[|b| - 1]);
      HexInjective(a[..|a| - 1], b[..|b| - 1]);
      HexByteInjective(a[|a| - 1], b[|b| - 1]);
    }
  }

  lemma {:induction false} DecimalShape(n: nat)
    ensures |Decimal(n)| > 0 && IsHex(Decimal(n))
    ensures n >= 10 <==> |Decimal(n)| > 1
  {
    if n >= 10 {
      DecimalShape(n / 10);
    }
  }

  lemma LastDigit(n: nat)
    ensures |Decimal(n)| > 0 && Decimal(n)[|Decimal(n)| - 1] == HEX_DIGITS[n % 10]
  {
  }

  lemma {:induction false} DecimalInjective(m: nat, n: nat)
    requires Decimal(m) == Decimal(n)
    ensures m == n
  {
    DecimalShape(m);
    DecimalShape(n);
    LastDigit(m);
    LastDigit(n);
    DigitsDiffer(m % 10, n % 10);
    if m >= 10 {
      var s := Decimal(m);
      assert s[..|s| - 1] == Decimal(m / 10);
      assert s[..|s| - 1] == Decimal(n / 10);
      DecimalInjective(m / 10, n / 10);
    }
  }

  /** Prefix and number can be read back from an id. */
  lemma IdInjective(p: string, m: nat, q: string, n: nat)
    requires IsHex(p) && IsHex(q)
    ensures IdText(p, m) == IdText(q, n) <==> p == q && m == n
  {
    if IdText(p, m) == IdText(q, n) {
      var s := IdText(p, m);
      assert s[|p|] == '-' && s[|q|] == '-';
      assert forall i :: 0 <= i < |p| ==> s[i] == p[i];
      assert forall i :: 0 <= i < |q| ==> s[i] == q[i];
      assert '-' !in HEX_DIGITS;
      assert |p| == |q|;
      assert p == s[..|p|] == q;
      assert s[|p| + 1..] == Decimal(m) == Decimal(n);
      DecimalInjective(m, n);
    }
  }

  function Value(bytes: seq<u8>): nat {
    if bytes == [] then 0 else bytes[0] + 0x100 * Value(bytes[1..])
  }

  function Bound(count: nat): nat {
    if count == 0 then 1 else 0x100 * Bound(count - 1)
  }

  lemma {:induction false} BytesReadBack(n: nat, count: nat)
    requires n < Bound(count)
    ensures |LittleEndian(n, count)| == count && Value(LittleEndian(n, count)) == n
  {
    if count == 0 {
    } else {
      BytesReadBack(n / 0x100, count - 1);
    }
  }

  lemma LowBytes(n: nat)
    ensures LittleEndian(n, 2) == LittleEndian(n % 0x1_0000, 2)
  {
    var low := n % 0x1_0000;
    assert n % 0x100 == low % 0x100 && n / 0x100 % 0x100 == low / 0x100 % 0x100;
    assert LittleEndian(n / 0x100, 1) == [n / 0x100 % 0x100] + LittleEndian(n / 0x10000, 0);
    assert LittleEndian(low / 0x100, 1) == [low / 0x100 % 0x100] + LittleEndian(low / 0x10000, 0);
  }

  /**
    Two allocators share their prefix exactly when they were made at the same
    nanosecond of some second, whichever second, by processes that agree modulo 2^16.
   */
  lemma PrefixesCollide(nanos: u32, pid: u32, nanos': u32, pid': u32)
    ensures PrefixText(nanos, pid) == PrefixText(nanos', pid') <==> nanos == nanos' && pid % 0x1_0000 == pid' % 0x1_0000
  {
    var a, b := LittleEndian(nanos, 4), LittleEndian(pid, 2);
    var a', b' := LittleEndian(nanos', 4), LittleEndian(pid', 2);
    assert Bound(4) == 0x1_0000_0000 && Bound(2) == 0x1_0000;
    BytesReadBack(nanos, 4);
    BytesReadBack(nanos', 4);
    BytesReadBack(pid % 0x1_0000, 2);
    BytesReadBack(pid' % 0x1_0000, 2);
    LowBytes(pid);
    LowBytes(pid');
    if Hex(a + b) == Hex(a' + b') {
      HexInjective(a + b, a' + b');
      assert a == (a + b)[..4] && a' == (a' + b')[..4];
      assert b == (a + b)[4..] && b' == (a' + b')[4..];
    }
  }

  lemma PrefixShape(nanos: u32, pid: u32)
    ensures |PrefixText(nanos, pid)| == 12 && IsHex(PrefixText(nanos, pid))
  {
    HexShape(LittleEndian(nanos, 4) + LittleEndian(pid, 2));
  }

  // ---- reading the texts back -----------------------------------------------

  predicate IsDigit(c: char) {
    '0' <= c <= '9' || 'a' <= c <= 'f'
  }

  /** The value of a lower-case hexadecimal digit. */
  function DigitValue(c: char): nat
    requires IsDigit(c)
  {
    if c <= '9' then c as int - '0' as int else c as int - 'a' as int + 10
  }

  lemma DigitReads(d: nat)
    requires d < 16
    ensures IsDigit(HEX_DIGITS[d]) && DigitValue(HEX_DIGITS[d]) == d
  {
  }

  /** The byte spelled at two places of a text. */
  function ByteAt(s: string, i: nat): nat
    requires i + 1 < |s| && IsDigit(s[i]) && IsDigit(s[i + 1])
  {
    0x10 * DigitValue(s[i]) + DigitValue(s[i + 1])
  }

  lemma HexByteReads(b: u8)
    ensures forall i :: 0 <= i < 2 ==> IsDigit(HexByte(b)[i])
    ensures ByteAt(HexByte(b), 0) == b
  {
    DigitReads(b / 16);
    DigitReads(b % 16);
  }

  lemma Slices(init: string, last: string, all: string, at: nat)
    requires all == init + last
    ensures at + 2 <= |init| ==> all[at..at + 2] == init[at..at + 2]
    ensures all[|init|..] == last
  {
  }

  lemma {:induction false} HexLength(bytes: seq<u8>)
    ensures |Hex(bytes)| == 2 * |bytes|
  {
    if bytes == [] {
    } else {
      HexLength(bytes[..|bytes| - 1]);
    }
  }

  lemma {:induction false} HexSlice(bytes: seq<u8>, i: nat)
    requires i < |bytes|
    ensures |Hex(bytes)| == 2 * |bytes| && Hex(bytes)[2 * i..2 * i + 2] == HexByte(bytes[i])
  {
    var n := |bytes| - 1;
    HexLength(bytes);
    HexLength(bytes[..n]);
    Slices(Hex(bytes[..n]), HexByte(bytes[n]), Hex(bytes), 2 * i);
    if i < n {
      HexSlice(bytes[..n], i);
    }
  }

  lemma {:induction false} SlicedByte(s: string, at: nat, b: u8)
    requires at + 2 <= |s| && s[at..at + 2] == HexByte(b)
    ensures IsDigit(s[at]) && IsDigit(s[at + 1]) && ByteAt(s, at) == b
  {
    HexByteReads(b);
    assert s[at] == HexByte(b)[0] && s[at + 1] == HexByte(b)[1];
  }

  /** The bytes can be read back from the text, in their order. */
  lemma {:induction false} HexReads(bytes: seq<u8>, i: nat, at: nat, s: string)
    requires i < |bytes| && at == 2 * i && s == Hex(bytes)
    ensures |s| == 2 * |bytes| && IsDigit(s[at]) && IsDigit(s[at + 1]) && ByteAt(s, at) == bytes[i]
  {
    HexSlice(bytes, i);
    SlicedByte(s, at, bytes[i]);
  }

  /** What the digits of a prefix say: the bytes of the clock and of the process id, the least significant first. */
  lemma {:induction false} PrefixReads(nanos: u32, pid: u32, p: string)
    requires p == PrefixText(nanos, pid)
    ensures |p| == 12 && forall i :: 0 <= i < 12 ==> IsDigit(p[i])
    ensures ByteAt(p, 0) + 0x100 * ByteAt(p, 2) + 0x1_0000 * ByteAt(p, 4) + 0x100_0000 * ByteAt(p, 6) == nanos
    ensures ByteAt(p, 8) + 0x100 * ByteAt(p, 10) == pid % 0x1_0000
  {
    var bytes := LittleEndian(nanos, 4) + LittleEndian(pid, 2);
    HexReads(bytes, 0, 0, p);
    HexReads(bytes, 1, 2, p);
    HexReads(bytes, 2, 4, p);
    HexReads(bytes, 3, 6, p);
    HexReads(bytes, 4, 8, p);
    HexReads(bytes, 5, 10, p);
    FourBytes(nanos);
    TwoBytes(pid);
  }

  lemma FourBytes(n: u32)
    ensures var b: seq<int> := LittleEndian(n, 4); b[0] + 0x100 * b[1] + 0x1_0000 * b[2] + 0x100_0000 * b[3] == n
  {
    assert Bound(4) == 0x1_0000_0000;
    BytesReadBack(n, 4);
    var b := LittleEndian(n, 4);
    assert Value(b) == b[0] + 0x100 * Value(b[1..]);
    assert Value(b[1..]) == b[1] + 0x100 * Value(b[1..][1..]) && b[1..][1..] == b[2..];
    assert Value(b[2..]) == b[2] + 0x100 * Value(b[2..][1..]) && b[2..][1..] == b[3..];
    assert Value(b[3..]) == b[3] + 0x100 * Value(b[3..][1..]) && b[3..][1..] == [];
  }

  lemma TwoBytes(n: nat)
    ensures var b: seq<int> := LittleEndian(n, 2); b[0] + 0x100 * b[1] == n % 0x1_0000
  {
    LowBytes(n);
    assert Bound(2) == 0x1_0000;
    BytesReadBack(n % 0x1_0000, 2);
    var b := LittleEndian(n, 2);
    assert Value(b) == b[0] + 0x100 * Value(b[1..]);
    assert Value(b[1..]) == b[1] + 0x100 * Value(b[1..][1..]) && b[1..][1..] == [];
  }

  predicate IsDecimal(s: string) {
    forall i :: 0 <= i < |s| ==> '0' <= s[i] <= '9'
  }

  /** The number that a text of decimal digits says. */
  function DecimalValue(s: string): nat
    requires IsDecimal(s)
  {
    if s == "" then 0 else 10 * DecimalValue(s[..|s| - 1]) + (s[|s| - 1] as int - '0' as int)
  }

  lemma {:induction false} DecimalReads(n: nat)
    ensures IsDecimal(Decimal(n)) && DecimalValue(Decimal(n)) == n
    ensures Decimal(n) != "" && (Decimal(n)[0] == '0' ==> n == 0)
  {
    DigitReads(n % 10);
    if n < 10 {
      assert Decimal(n)[..0] == "";
    } else {
      DecimalReads(n / 10);
      assert Decimal(n)[..|Decimal(n)| - 1] == Decimal(n / 10);
    }
  }

  /** What an issued id says: its prefix, a dash, and its number modulo 2^64 in decimal without leading zeros. */
  lemma IssuedReads(p: string, k: nat, id: string)
    requires id == IssuedId(p, k)
    ensures |id| > |p| + 1 && id[..|p|] == p && id[|p|] == '-'
    ensures IsDecimal(id[|p| + 1..]) && DecimalValue(id[|p| + 1..]) == k % 0x1_0000_0000_0000_0000
    ensures id[|p| + 1] == '0' ==> k % 0x1_0000_0000_0000_0000 == 0
  {
    DecimalReads(k % WRAPAROUND);
    assert id[|p| + 1..] == Decimal(k % WRAPAROUND);
  }

  /** The id an allocator issues as number `k`, counting from zero. */
  function IssuedId(prefix: string, k: nat): string {
    IdText(prefix, k % WRAPAROUND)
  }

  lemma CountOn(k: nat)
    ensures (k % WRAPAROUND + 1) % WRAPAROUND == (k + 1) % WRAPAROUND
  {
  }

  lemma SameResidue(j: nat, k: nat)
    ensures j % WRAPAROUND == k % WRAPAROUND <==> (k - j) % WRAPAROUND == 0
  {
    var a, b := j / WRAPAROUND, k / WRAPAROUND;
    assert k - j == WRAPAROUND * (b - a) + (k % WRAPAROUND - j % WRAPAROUND);
  }

  /** Two ids are the same exactly when allocators with the same prefix issued them a multiple of 2^64 apart. */
  lemma IssuedIdsCollide(p: string, j: nat, q: string, k: nat)
    requires IsHex(p) && IsHex(q)
    ensures IssuedId(p, j) == IssuedId(q, k) <==> p == q && (k - j) % WRAPAROUND == 0
  {
    IdInjective(p, j % WRAPAROUND, q, k % WRAPAROUND);
    SameResidue(j, k);
  }
}
