/**
 Octets written as text, six bits to a symbol (`belle_sip_octets_to_text`), and the bit reader it uses.
 */
module OctetText {
  import opened Bits
  import opened Bytes

  /** The symbol for six bits, eight to a line. */
  function SymbolOf(v: nat): char
    requires v < 64
  {
    if v < 8 then "aAbBcCdD"[v]
    else if v < 16 then "eEfFgGhH"[v - 8]
    else if v < 24 then "iIjJkKlL"[v - 16]
    else if v < 32 then "mMnNoOpP"[v - 24]
    else if v < 40 then "qQrRsStT"[v - 32]
    else if v < 48 then "uUvVwWxX"[v - 40]
    else if v < 56 then "yYzZ0123"[v - 48]
    else "456789-~"[v - 56]
  }

  /** `x >> k`. */
  function Shift(x: nat, k: nat): nat {
    if k == 0 then x else Shift(x / 2, k - 1)
  }

  /** `x & ((1 << count) - 1)`. */
  function Masked(x: nat, count: nat): nat {
    if count == 0 then 0 else 2 * Masked(x / 2, count - 1) + x % 2
  }

  function Octet(h: seq<byte>, i: nat): (b: nat)
    ensures b < 256
  {
    if i < |h| then h[i] as nat else 0
  }

  /** Bit `p` of the octets, from the most significant bit of the first one on; zeros follow. */
  function Bit(h: seq<byte>, p: nat): (b: nat)
    ensures b < 2
  {
    Shift(Octet(h, p / 8), 7 - p % 8) % 2
  }

  /** The number that the `count` bits from `p` on are. */
  function Window(h: seq<byte>, p: nat, count: nat): nat {
    if count == 0 then 0 else 2 * Window(h, p, count - 1) + Bit(h, p + count - 1)
  }

  // ---------------------------------------------------------------- four octets in a word

  /** The word the reader shifts. */
  function Word(h: seq<byte>, i: nat): nat {
    ((Octet(h, i) * 256 + Octet(h, i + 1)) * 256 + Octet(h, i + 2)) * 256 + Octet(h, i + 3)
  }

  lemma {:induction false} ShiftTwice(x: nat, a: nat, b: nat)
    ensures Shift(x, a + b) == Shift(Shift(x, a), b)
    decreases a
  {
    if a > 0 {
      ShiftTwice(x / 2, a - 1, b);
    }
  }

  /** The `n` lowest bits are the same. */
  predicate Alike(x: nat, y: nat, n: nat) {
    n == 0 || (x % 2 == y % 2 && Alike(x / 2, y / 2, n - 1))
  }

  lemma {:induction false} AlikeBit(x: nat, y: nat, n: nat, j: nat)
    requires Alike(x, y, n) && j < n
    ensures Shift(x, j) % 2 == Shift(y, j) % 2
    decreases n
  {
    if j > 0 {
      AlikeBit(x / 2, y / 2, n - 1, j - 1);
    }
  }

  lemma Halves(m: nat, b: nat, c: nat, d: nat)
    requires b < 2 * d && c == m * (2 * d) + b
    ensures c / 2 == m * d + b / 2 && c % 2 == b % 2 && b / 2 < d
  {
    assert c == 2 * (m * d) + b;
  }

  lemma {:induction false} LowBits(m: nat, b: nat, n: nat, x: nat)
    requires b < Pow2(n) && x == m * Pow2(n) + b
    ensures Alike(x, b, n) && Shift(x, n) == m
    decreases n
  {
    if n > 0 {
      Halves(m, b, x, Pow2(n - 1));
      LowBits(m, b / 2, n - 1, x / 2);
    }
  }

  /** An octet behind others: its bits are the low ones, and the others are left when it is shifted out. */
  lemma LowOctet(m: nat, b: nat)
    requires b < 256
    ensures Alike(m * 256 + b, b, 8) && Shift(m * 256 + b, 8) == m
  {
    assert Pow2(8) == 256;
    LowBits(m, b, 8, m * 256 + b);
  }

  /** Shifted by whole octets, the word ends with an octet. */
  lemma WordOctet(h: seq<byte>, i: nat, k: nat) returns (m: nat)
    requires k < 4
    ensures Shift(Word(h, i), 8 * (3 - k)) == m * 256 + Octet(h, i + k)
  {
    var b0, b1, b2, b3 := Octet(h, i), Octet(h, i + 1), Octet(h, i + 2), Octet(h, i + 3);
    var m3 := (b0 * 256 + b1) * 256 + b2;
    var m2 := b0 * 256 + b1;
    LowOctet(m3, b3);
    LowOctet(m2, b2);
    LowOctet(b0, b1);
    ShiftTwice(Word(h, i), 8, 8);
    ShiftTwice(Word(h, i), 16, 8);
    m := if k == 3 then m3 else if k == 2 then m2 else if k == 1 then b0 else 0;
    assert Shift(Word(h, i), 0) == Word(h, i);
  }

  /** Bit `q` of the word is bit `q` from its first octet on. */
  lemma WordBit(h: seq<byte>, i: nat, q: nat)
    requires q < 32
    ensures Shift(Word(h, i), 31 - q) % 2 == Bit(h, 8 * i + q)
  {
    var k, j := q / 8, 7 - q % 8;
    var m := WordOctet(h, i, k);
    var b := Octet(h, i + k);
    assert 31 - q == 8 * (3 - k) + j;
    ShiftTwice(Word(h, i), 8 * (3 - k), j);
    LowOctet(m, b);
    AlikeBit(m * 256 + b, b, 8, j);
    assert (8 * i + q) / 8 == i + k && (8 * i + q) % 8 == q % 8;
  }

  /** Shifted and masked, the word is the window. */
  lemma {:induction false} WordWindow(h: seq<byte>, i: nat, o: nat, count: nat)
    requires o + count <= 32
    ensures Masked(Shift(Word(h, i), 32 - o - count), count) == Window(h, 8 * i + o, count)
    decreases count
  {
    if count > 0 {
      var s := 32 - o - count;
      WordWindow(h, i, o, count - 1);
      ShiftTwice(Word(h, i), s, 1);
      assert Shift(Shift(Word(h, i), s), 1) == Shift(Word(h, i), s) / 2;
      WordBit(h, i, o + count - 1);
    }
  }

  // ---------------------------------------------------------------- the text

  /** How many symbols there are: as the buffer has room for beside the NUL, and no more than the bits need. */
  function Count(len: nat, size: nat): nat
    requires size > 0
  {
    var needed := (8 * len + 5) / 6;
    if size - 1 < needed then size - 1 else needed
  }

  lemma {:induction false} WindowBound(h: seq<byte>, p: nat, count: nat)
    ensures Window(h, p, count) < Pow2(count)
  {
    if count > 0 {
      WindowBound(h, p, count - 1);
    }
  }

  function Symbol(h: seq<byte>, i: nat): char {
    assert Pow2(6) == 64;
    WindowBound(h, 6 * i, 6);
    SymbolOf(Window(h, 6 * i, 6))
  }

  function Text(h: seq<byte>, size: nat): string
    requires size > 0
  {
    seq(Count(|h|, size), i requires 0 <= i => Symbol(h, i))
  }

  /** Where a symbol stands. */
  function Rank(c: char): int {
    if 'a' <= c <= 'z' then 2 * (c as int - 'a' as int)
    else if 'A' <= c <= 'Z' then 2 * (c as int - 'A' as int) + 1
    else if '0' <= c <= '9' then 52 + (c as int - '0' as int)
    else if c == '-' then 62 else 63
  }

  lemma Row(s: string, lo: int, j: nat)
    requires |s| == 8 && j < 8 && Rank(s[0]) == lo && Rank(s[1]) == lo + 1 && Rank(s[2]) == lo + 2
             && Rank(s[3]) == lo + 3
    requires Rank(s[4]) == lo + 4 && Rank(s[5]) == lo + 5 && Rank(s[6]) == lo + 6 && Rank(s[7]) == lo + 7
    ensures Rank(s[j]) == lo + j
  {
  }

  lemma SymbolsDiffer(v: nat)
    requires v < 64
    ensures Rank(SymbolOf(v)) == v
  {
    match v / 8 {
      case 0 => Row("aAbBcCdD", 0, v - 0);
      case 1 => Row("eEfFgGhH", 8, v - 8);
      case 2 => Row("iIjJkKlL", 16, v - 16);
      case 3 => Row("mMnNoOpP", 24, v - 24);
      case 4 => Row("qQrRsStT", 32, v - 32);
      case 5 => Row("uUvVwWxX", 40, v - 40);
      case 6 => Row("yYzZ0123", 48, v - 48);
      case _ => Row("456789-~", 56, v - 56);
    }
  }

  /** A bit of the octets, the highest one of an octet first; zeros behind the last. */
  function BitAt(h: seq<byte>, p: nat): nat {
    if p / 8 >= |h| then 0
    else
      var b := h[p / 8] as nat;
      match p % 8
      case 0 => b / 128 % 2
      case 1 => b / 64 % 2
      case 2 => b / 32 % 2
      case 3 => b / 16 % 2
      case 4 => b / 8 % 2
      case 5 => b / 4 % 2
      case 6 => b / 2 % 2
      case _ => b % 2
  }

  lemma ShiftDivides(x: nat)
    ensures Shift(x, 0) == x && Shift(x, 1) == x / 2 && Shift(x, 2) == x / 4 && Shift(x, 3) == x / 8
    ensures Shift(x, 4) == x / 16 && Shift(x, 5) == x / 32 && Shift(x, 6) == x / 64 && Shift(x, 7) == x / 128
  {
    assert Shift(x, 2) == Shift(x / 2, 1) == x / 4;
    assert Shift(x, 3) == Shift(x / 2, 2) == Shift(x / 4, 1) == x / 8;
    assert Shift(x, 4) == Shift(x / 2, 3) == Shift(x / 4, 2) == Shift(x / 8, 1) == x / 16;
    ShiftTwice(x, 4, 1);
    ShiftTwice(x, 4, 2);
    ShiftTwice(x, 4, 3);
    var y := x / 16;
    assert Shift(y, 2) == Shift(y / 2, 1) == y / 4;
    assert Shift(y, 3) == Shift(y / 2, 2) == Shift(y / 4, 1) == y / 8;
  }

  lemma BitIs(h: seq<byte>, p: nat)
    ensures Bit(h, p) == BitAt(h, p)
  {
    ShiftDivides(Octet(h, p / 8));
  }

  lemma SixBits(h: seq<byte>, p: nat)
    ensures Window(h, p, 6)
            == 32 * Bit(h, p) + 16 * Bit(h, p + 1) + 8 * Bit(h, p + 2) + 4 * Bit(h, p + 3) + 2 * Bit(h, p + 4)
              + Bit(h, p + 5)
  {
    assert Window(h, p, 1) == Bit(h, p);
    assert Window(h, p, 2) == 2 * Bit(h, p) + Bit(h, p + 1);
    assert Window(h, p, 3) == 4 * Bit(h, p) + 2 * Bit(h, p + 1) + Bit(h, p + 2);
    assert Window(h, p, 4) == 2 * Window(h, p, 3) + Bit(h, p + 3);
    assert Window(h, p, 5) == 2 * Window(h, p, 4) + Bit(h, p + 4);
  }

  /** The text, symbol for symbol: where each stands among the sixty-four is the number that its six bits are. */
  lemma {:induction false} TextIs(h: seq<byte>, size: nat, i: nat)
    requires size > 0 && i < |Text(h, size)|
    ensures |Text(h, size)| == Min(size - 1, (8 * |h| + 5) / 6)
    ensures Rank(Text(h, size)[i])
            == 32 * BitAt(h, 6 * i) + 16 * BitAt(h, 6 * i + 1) + 8 * BitAt(h, 6 * i + 2) + 4 * BitAt(h, 6 * i + 3)
               + 2 * BitAt(h, 6 * i + 4) + BitAt(h, 6 * i + 5)
  {
    assert Pow2(6) == 64;
    WindowBound(h, 6 * i, 6);
    SymbolsDiffer(Window(h, 6 * i, 6));
    SixBits(h, 6 * i);
    BitIs(h, 6 * i);
    BitIs(h, 6 * i + 1);
    BitIs(h, 6 * i + 2);
    BitIs(h, 6 * i + 3);
    BitIs(h, 6 * i + 4);
    BitIs(h, 6 * i + 5);
  }

  lemma {:induction false} SameWindow(g: seq<byte>, h: seq<byte>, p: nat, count: nat, k: nat)
    requires Window(g, p, count) == Window(h, p, count) && k < count
    ensures Bit(g, p + k) == Bit(h, p + k)
    decreases count
  {
    assert Window(g, p, count - 1) == Window(h, p, count - 1) && Bit(g, p + count - 1) == Bit(h, p + count - 1);
    if k < count - 1 {
      SameWindow(g, h, p, count - 1, k);
    }
  }

  lemma {:induction false} FromShifts(x: nat, y: nat, n: nat)
    requires x < Pow2(n) && y < Pow2(n) && forall j: nat {:trigger Shift(x, j)} :: j < n ==>
             Shift(x, j) % 2 == Shift(y, j) % 2
    ensures x == y
    decreases n
  {
    if n > 0 {
      assert Shift(x, 0) % 2 == Shift(y, 0) % 2;
      forall j: nat | j < n - 1 ensures Shift(x / 2, j) % 2 == Shift(y / 2, j) % 2 {
        assert Shift(x, j + 1) % 2 == Shift(y, j + 1) % 2;
      }
      FromShifts(x / 2, y / 2, n - 1);
    }
  }

  /** Octets of the same length give the same text only if they are the same, when the buffer has room for all of it. */
  lemma {:induction false} TextDetermines(g: seq<byte>, h: seq<byte>, size: nat)
    requires |g| == |h| && size > 0 && 6 * (size - 1) >= 8 * |g| && Text(g, size) == Text(h, size)
    ensures g == h
  {
    forall p: nat | p < 8 * |g| ensures Bit(g, p) == Bit(h, p) {
      var i := p / 6;
      assert Text(g, size)[i] == Text(h, size)[i];
      assert Pow2(6) == 64;
      WindowBound(g, 6 * i, 6);
      WindowBound(h, 6 * i, 6);
      SymbolsDiffer(Window(g, 6 * i, 6));
      SymbolsDiffer(Window(h, 6 * i, 6));
      SameWindow(g, h, 6 * i, 6, p % 6);
    }
    forall b | 0 <= b < |g| ensures g[b] == h[b] {
      forall j: nat | j < 8 ensures Shift(g[b], j) % 2 == Shift(h[b], j) % 2 {
        var p := 8 * b + (7 - j);
        assert p / 8 == b && p % 8 == 7 - j && Bit(g, p) == Bit(h, p);
      }
      assert Pow2(8) == 256;
      FromShifts(g[b], h[b], 8);
    }
  }

  // ---------------------------------------------------------------- the code

  class BitsReader {
    const buffer: seq<byte>
    var bitIndex: nat

    constructor (buffer: seq<byte>)
      ensures this.buffer == buffer && bitIndex == 0
    {
      this.buffer, bitIndex := buffer, 0;
    }

    /** `bits_reader_read`: fails for too many bits, and past the end. */
    method Read(count: nat) returns (ok: bool, ret: nat)
      modifies this
      ensures ok == (count < 24 && old(bitIndex) / 8 < |buffer|)
      ensures if ok then ret == Window(buffer, old(bitIndex), count)
                         && bitIndex == old(bitIndex) + count else bitIndex == old(bitIndex)
    {
      ret := 0;
      var byteIndex := bitIndex / 8;
      var bit := bitIndex % 8;
      if count >= 24 || byteIndex >= |buffer| {
        return false, 0;
      }
      var tmp: nat := buffer[byteIndex] as nat;
      tmp := tmp * 256 + Octet(buffer, byteIndex + 1);
      tmp := tmp * 256 + Octet(buffer, byteIndex + 2);
      tmp := tmp * 256 + Octet(buffer, byteIndex + 3);
      assert tmp == Word(buffer, byteIndex);
      WordWindow(buffer, byteIndex, bit, count);
      assert bitIndex == 8 * byteIndex + bit;
      ret := Masked(Shift(tmp, 32 - bit - count), count);
      bitIndex := bitIndex + count;
      ok := true;
    }
  }

  /** `belle_sip_octets_to_text`; `n` symbols are written, and a NUL behind them. */
  method OctetsToText(hash: seq<byte>, ret: array<char>, size: nat) returns (n: nat)
    requires 0 < size <= ret.Length
    modifies ret
    ensures n < size && ret[..n] == Text(hash, size) && ret[n] == 0 as char
  {
    var reader := new BitsReader(hash);
    n := 0;
    while n < size - 1
      invariant n <= size - 1 && reader.bitIndex == 6 * n && fresh(reader) && reader.buffer == hash
                && n <= (8 * |hash| + 5) / 6
      invariant forall i :: 0 <= i < n ==> ret[i] == Symbol(hash, i)
    {
      var ok, val := reader.Read(6);
      if !ok {
        break;
      }
      assert Pow2(6) == 64;
      WindowBound(hash, 6 * n, 6);
      ret[n] := SymbolOf(val);
      n := n + 1;
    }
    assert n == Count(|hash|, size);
    ret[n] := 0 as char;
    assert ret[..n] == Text(hash, size);
  }
}
