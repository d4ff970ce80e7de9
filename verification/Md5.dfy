/**
 MD5 over a stream (sections 3.1 to 3.5 of RFC 1321): data arrive in pieces and are hashed block by
 block as they come.  The compression of one block may be any function.
 */
module Md5 {
  import opened Bytes

  /** The four words of the digest buffer. */
  datatype Words = Words(a: nat, b: nat, c: nat, d: nat)

  const INIT := Words(0x67452301, 0xefcdab89, 0x98badcfe, 0x10325476)

  const BLOCK: nat := 64
  const WORD: nat := 0x1_0000_0000
  const LONG: nat := 0x1_0000_0000_0000_0000

  // ---------------------------------------------------------------- at once

  /** All full blocks of `m`, in order. */
  function Fold(process: (Words, seq<byte>) -> Words, s: Words, m: seq<byte>): Words
    decreases |m|
  {
    if |m| < BLOCK then s else Fold(process, process(s, m[..BLOCK]), m[BLOCK..])
  }

  /** What is left behind the full blocks. */
  function Rest(m: seq<byte>): (r: seq<byte>)
    ensures |r| < BLOCK && |r| == |m| % BLOCK
    decreases |m|
  {
    if |m| < BLOCK then m else Rest(m[BLOCK..])
  }

  /** The octets of a word, the lowest first. */
  function Octets(w: nat): (s: seq<byte>)
    ensures |s| == 4
  {
    [w % 256, w / 0x100 % 256, w / 0x10000 % 256, w / 0x1000000 % 256]
  }

  /** A 64-bit number, the lowest octet first. */
  function Long(low: nat, high: nat): (s: seq<byte>)
    ensures |s| == 8
  {
    Octets(low) + Octets(high)
  }

  /** One bit, then zeros up to eight octets short of a block. */
  function Padding(n: nat): (s: seq<byte>)
    ensures |s| == (55 - n) % BLOCK + 1
  {
    [0x80] + Zeros((55 - n) % BLOCK)
  }

  /** Sections 3.1 and 3.2 of RFC 1321: the message, padded, and its length in bits modulo 2^64. */
  function Padded(m: seq<byte>): seq<byte> {
    m + Padding(|m|) + Long(8 * |m| % LONG % WORD, 8 * |m| % LONG / WORD)
  }

  lemma PaddingFills(n: nat, size: nat)
    requires size == n + ((55 - n) % BLOCK + 1) + 8
    ensures size % BLOCK == 0 && n + 9 <= size <= n + 72
  {
  }

  /** The padded message is a number of whole blocks: none of it is left out of the hash. */
  lemma {:induction false} PaddedIsWhole(m: seq<byte>)
    ensures |Padded(m)| % BLOCK == 0 && |m| + 9 <= |Padded(m)| <= |m| + 72 && Rest(Padded(m)) == []
  {
    PaddingFills(|m|, |Padded(m)|);
  }

  function Digest(s: Words): (d: seq<byte>)
    ensures |d| == 16
  {
    Octets(s.a) + Octets(s.b) + Octets(s.c) + Octets(s.d)
  }

  function Hash(process: (Words, seq<byte>) -> Words, m: seq<byte>): seq<byte> {
    Digest(Fold(process, INIT, Padded(m)))
  }

  // ---------------------------------------------------------------- what RFC 1321 says of it

  /** The `i`-th octet of a number, the lowest one being the first. */
  function Octet(x: nat, i: nat): (b: byte) {
    if i == 0 then x % 256 else Octet(x / 256, i - 1)
  }

  /** The octets of a number below 256^n are those of any number that it is the remainder of. */
  lemma {:induction false} OctetOfRest(x: nat, h: nat, r: nat, n: nat, i: nat)
    requires x == h * Power256(n) + r && i < n
    ensures Octet(x, i) == Octet(r, i)
    decreases n
  {
    var p := Power256(n - 1);
    assert h * Power256(n) == 256 * (h * p) by {
      Regroup(h, p);
    }
    if i == 0 {
      assert x % 256 == r % 256;
    } else {
      assert x / 256 == h * p + r / 256;
      OctetOfRest(x / 256, h, r / 256, n - 1, i - 1);
    }
  }

  lemma Regroup(h: nat, p: nat)
    ensures h * (256 * p) == 256 * (h * p)
  {
  }

  function Power256(i: nat): (p: nat)
    ensures p > 0
  {
    if i == 0 then 1 else 256 * Power256(i - 1)
  }

  lemma Powers()
    ensures Power256(4) == WORD && Power256(8) == LONG
  {
    assert Power256(2) == 0x10000 && Power256(6) == 0x1_0000_0000_0000;
  }

  lemma InTurn(x: nat)
    ensures x / 256 / 256 == x / 0x10000
  {
    var a := x / 256;
    assert x == 256 * a + x % 256 && a == 256 * (a / 256) + a % 256;
  }

  lemma ThreeInTurn(x: nat)
    ensures x / 256 / 256 / 256 == x / 0x1000000
  {
    InTurn(x);
    var a := x / 0x10000;
    assert x == 0x10000 * a + x % 0x10000 && a == 256 * (a / 256) + a % 256;
  }

  lemma FourInTurn(x: nat)
    ensures x / 256 / 256 / 256 / 256 == x / WORD
  {
    ThreeInTurn(x);
    var a := x / 0x1000000;
    assert x == 0x1000000 * a + x % 0x1000000 && a == 256 * (a / 256) + a % 256;
  }

  lemma OctetsAre(w: nat, i: nat)
    requires i < 4
    ensures Octets(w)[i] == Octet(w, i)
  {
    InTurn(w);
    ThreeInTurn(w);
    assert Octet(w, 1) == w / 256 % 256;
    assert Octet(w, 2) == Octet(w / 256, 1) == w / 256 / 256 % 256;
    assert Octet(w, 3) == Octet(w / 256, 2) == Octet(w / 256 / 256, 1);
  }

  lemma UpperOctet(w: nat, i: nat)
    ensures Octet(w, i + 4) == Octet(w / WORD, i)
  {
    FourInTurn(w);
    assert Octet(w, i + 4) == Octet(w / 256, i + 3);
    assert Octet(w / 256, i + 3) == Octet(w / 256 / 256, i + 2);
    assert Octet(w / 256 / 256, i + 2) == Octet(w / 256 / 256 / 256, i + 1);
  }

  lemma LongOctet(x: nat, i: nat)
    requires i < 8
    ensures Long(x % LONG % WORD, x % LONG / WORD)[i] == Octet(x, i)
  {
    Powers();
    var y := x % LONG;
    OctetOfRest(x, x / LONG, y, 8, i);
    if i < 4 {
      OctetsAre(y % WORD, i);
      OctetOfRest(y, y / WORD, y % WORD, 4, i);
    } else {
      OctetsAre(y / WORD, i - 4);
      UpperOctet(y, i - 4);
    }
  }

  /**
   Section 3.1 and 3.2, octet by octet: behind the message one bit that is set, then zeros, and then the 64 low-order
   bits of the length in bits, the lowest octet first.
   */
  lemma {:induction false} PaddedOctets(m: seq<byte>, k: nat)
    requires |m| <= k < |Padded(m)|
    ensures var i := k - (|Padded(m)| - 8);
            Padded(m)[..|m|] == m
            && Padded(m)[k] == if k == |m| then 0x80 else if i < 0 then 0 else Octet(8 * |m|, i)
  {
    var n, i := |m|, k - (|Padded(m)| - 8);
    var p, l := Padding(n), Long(8 * n % LONG % WORD, 8 * n % LONG / WORD);
    assert Padded(m) == m + p + l;
    if i < 0 {
      assert Padded(m)[k] == p[k - n];
    } else {
      assert Padded(m)[k] == l[i];
      LongOctet(8 * n, i);
    }
  }

  /** The digest holds the words in turn, octet by octet. */
  lemma {:induction false} DigestOctets(s: Words, k: nat)
    requires k < 16
    ensures Digest(s)[k] == Octet(if k < 4 then s.a else if k < 8 then s.b else if k < 12 then s.c else s.d, k % 4)
  {
    OctetsAre(if k < 4 then s.a else if k < 8 then s.b else if k < 12 then s.c else s.d, k % 4);
  }

  /** The words once `k` blocks were hashed, one after another. */
  function Blocks(process: (Words, seq<byte>) -> Words, s: Words, m: seq<byte>, k: nat): Words
    requires 64 * k <= |m|
  {
    if k == 0 then s else process(Blocks(process, s, m, k - 1), m[64 * (k - 1)..64 * k])
  }

  lemma {:induction false} BlocksOn(process: (Words, seq<byte>) -> Words, s: Words, m: seq<byte>, k: nat)
    requires 64 * (k + 1) <= |m|
    ensures Blocks(process, s, m, k + 1) == Blocks(process, process(s, m[..64]), m[64..], k)
    decreases k
  {
    if k > 0 {
      BlocksOn(process, s, m, k - 1);
      assert m[64..][64 * (k - 1)..64 * k] == m[64 * k..64 * (k + 1)];
    } else {
      assert m[0..64] == m[..64];
    }
  }

  lemma {:induction false} FoldIsBlocks(process: (Words, seq<byte>) -> Words, s: Words, m: seq<byte>)
    ensures Fold(process, s, m) == Blocks(process, s, m, |m| / 64)
    decreases |m|
  {
    if |m| >= 64 {
      FoldIsBlocks(process, process(s, m[..64]), m[64..]);
      BlocksOn(process, s, m, |m| / 64 - 1);
    }
  }

  /** Section 3.3 gives the first four words, the low-order octet of each first. */
  lemma InitialWords()
    ensures Digest(INIT) == [0x01, 0x23, 0x45, 0x67, 0x89, 0xab, 0xcd, 0xef, 0xfe, 0xdc, 0xba, 0x98, 0x76, 0x54, 0x32,
                             0x10]
  {
  }

  /** Sections 3.4 and 3.5: the blocks one after another, and then the words, the low-order octet first. */
  lemma {:induction false} HashIsBlocks(process: (Words, seq<byte>) -> Words, m: seq<byte>)
    ensures Hash(process, m) == Digest(Blocks(process, INIT, Padded(m), |Padded(m)| / 64))
  {
    FoldIsBlocks(process, INIT, Padded(m));
  }

  // ---------------------------------------------------------------- in pieces

  /** Hashing on after `m` needs only the words and what was left. */
  lemma {:induction false} FoldOn(process: (Words, seq<byte>) -> Words, s: Words, m: seq<byte>, d: seq<byte>)
    ensures Fold(process, s, m + d) == Fold(process, Fold(process, s, m), Rest(m) + d)
    ensures Rest(m + d) == Rest(Rest(m) + d)
    decreases |m|
  {
    if |m| >= BLOCK {
      assert (m + d)[..BLOCK] == m[..BLOCK] && (m + d)[BLOCK..] == m[BLOCK..] + d;
      FoldOn(process, process(s, m[..BLOCK]), m[BLOCK..], d);
    }
  }

  datatype Stream = Stream(s: Words, rest: seq<byte>)

  /** One piece more. */
  function Feed(process: (Words, seq<byte>) -> Words, t: Stream, piece: seq<byte>): Stream {
    Stream(Fold(process, t.s, t.rest + piece), Rest(t.rest + piece))
  }

  function FeedAll(process: (Words, seq<byte>) -> Words, t: Stream, pieces: seq<seq<byte>>): Stream
    decreases |pieces|
  {
    if pieces == [] then t else FeedAll(process, Feed(process, t, pieces[0]), pieces[1..])
  }

  function Concat(pieces: seq<seq<byte>>): seq<byte> {
    if pieces == [] then [] else pieces[0] + Concat(pieces[1..])
  }

  /** However a message is cut, the state is that of the message. */
  lemma {:induction false} PiecesDoNotMatter(process: (Words, seq<byte>) -> Words, m: seq<byte>, pieces: seq<seq<byte>>)
    ensures FeedAll(process, Stream(Fold(process, INIT, m), Rest(m)), pieces)
            == Stream(Fold(process, INIT, m + Concat(pieces)), Rest(m + Concat(pieces)))
    decreases |pieces|
  {
    if pieces == [] {
      assert m + [] == m;
    } else {
      FoldOn(process, INIT, m, pieces[0]);
      PiecesDoNotMatter(process, m + pieces[0], pieces[1..]);
      assert m + pieces[0] + Concat(pieces[1..]) == m + Concat(pieces);
    }
  }

  // ---------------------------------------------------------------- the code

  lemma HighPart(y: nat, low: nat)
    requires low < WORD
    ensures (y * WORD + low) % LONG == y % WORD * WORD + low
  {
    var q, r := y / WORD, y % WORD;
    assert y * WORD + low == q * LONG + (r * WORD + low);
  }

  lemma Carry(count0: nat, x: nat)
    requires count0 < WORD && x < WORD
    ensures var low := (count0 + x) % WORD; count0 + x == low + (if low < x then WORD else 0)
  {
  }

  lemma SumModulo(bits: nat, count: nat, x: nat)
    requires count == bits % LONG
    ensures (count + x) % LONG == (bits + x) % LONG
  {
  }

  /** The two words count bits modulo 2^64: the carry of the lower one is where it wraps. */
  lemma {:induction false} CarriesOver(count0: nat, count1: nat, bits: nat, n: nat)
    requires count0 < WORD && count1 < WORD && n < 0x8000_0000 && count1 * WORD + count0 == bits % LONG
    ensures var low, high := (count0 + 8 * n % WORD) % WORD, (count1 + n / 0x2000_0000) % WORD;
            var high' := if low < 8 * n % WORD then (high + 1) % WORD else high;
            high' * WORD + low == (bits + 8 * n) % LONG
  {
    var x: nat, xh: nat := 8 * n % WORD, n / 0x2000_0000;
    var low: nat := (count0 + x) % WORD;
    assert 8 * n == xh * WORD + x;
    Carry(count0, x);
    var carry: nat := if low < x then 1 else 0;
    var y := count1 + xh + carry;
    SumModulo(bits, count1 * WORD + count0, 8 * n);
    assert count1 * WORD + count0 + 8 * n == y * WORD + low;
    HighPart(y, low);
    CarryIn(count1 + xh, carry);
  }

  lemma CarryIn(a: nat, carry: nat)
    ensures (a + carry) % WORD == (a % WORD + carry) % WORD
  {
  }

  lemma Offset(count0: nat, count1: nat, n: nat)
    requires count0 < WORD && count1 * WORD + count0 == 8 * n % LONG
    ensures count0 / 8 % BLOCK == n % BLOCK
  {
    var q := 8 * n / LONG;
    assert 8 * n == q * LONG + count1 * WORD + count0;
    assert n == q * (LONG / 8) + count1 * (WORD / 8) + count0 / 8;
  }

  class Hasher {
    var count0: nat
    var count1: nat
    var abcd: Words
    const buf: array<byte>
    const process: (Words, seq<byte>) -> Words
    /** Everything appended so far. */
    ghost var message: seq<byte>

    ghost predicate Valid()
      reads this, buf
    {
      buf.Length == BLOCK && count0 < WORD && count1 < WORD
      && count1 * WORD + count0 == 8 * |message| % LONG
      && abcd == Fold(process, INIT, message) && buf[..|message| % BLOCK] == Rest(message)
    }

    /** `belle_sip_md5_init`. */
    constructor (process: (Words, seq<byte>) -> Words)
      ensures Valid() && message == [] && fresh(buf) && this.process == process
    {
      count0, count1 := 0, 0;
      abcd := INIT;
      buf := new byte[BLOCK];
      this.process := process;
      message := [];
    }

    /** `memcpy` into the block that is being filled. */
    method Fill(offset: nat, b: seq<byte>, ghost t: seq<byte>)
      requires buf.Length == BLOCK && offset + |b| <= BLOCK && t == buf[..offset]
      modifies buf
      ensures buf[..offset + |b|] == t + b
    {
      forall i | 0 <= i < |b| {
        buf[offset + i] := b[i];
      }
    }

    /** `pms->count` after `n` more octets. */
    method Count(n: nat, ghost m: seq<byte>)
      requires count0 < WORD && count1 < WORD && count1 * WORD + count0 == 8 * |m| % LONG && n < 0x8000_0000
      modifies this`count0, this`count1
      ensures count0 < WORD && count1 < WORD && count1 * WORD + count0 == 8 * (|m| + n) % LONG
    {
      CarriesOver(count0, count1, 8 * |m|, n);
      var bits := 8 * n % WORD;
      count1 := (count1 + n / 0x2000_0000) % WORD;
      count0 := (count0 + bits) % WORD;
      if count0 < bits {
        count1 := (count1 + 1) % WORD;
      }
    }

    /** The full blocks of `data` from `p` on, and what is left into the buffer. */
    method Blocks(data: seq<byte>, start: nat)
      requires buf.Length == BLOCK && start <= |data|
      modifies this`abcd, buf
      ensures abcd == Fold(process, old(abcd), data[start..]) && buf[..(|data| - start) % BLOCK] == Rest(data[start..])
    {
      var p: nat, left: nat := start, |data| - start;
      ghost var all := data[start..];
      while left >= BLOCK
        invariant start <= p && p + left == |data| && left % BLOCK == (|data| - start) % BLOCK
        invariant Fold(process, abcd, data[p..]) == Fold(process, old(abcd), all) && Rest(data[p..]) == Rest(all)
        decreases left
      {
        assert data[p..][..BLOCK] == data[p..p + BLOCK] && data[p..][BLOCK..] == data[p + BLOCK..];
        abcd := process(abcd, data[p..p + BLOCK]);
        p, left := p + BLOCK, left - BLOCK;
      }
      Fill(0, data[p..], []);
    }

    /** `belle_sip_md5_append`; sizes are those for which the sums in `int` do not overflow. */
    method Append(data: seq<byte>)
      requires Valid() && |data| < 0x8000_0000 - BLOCK
      modifies this, buf
      ensures Valid() && message == old(message) + data
    {
      var left: nat, offset: nat := |data|, count0 / 8 % BLOCK;
      Offset(count0, count1, |message|);
      ghost var t, m := buf[..offset], message;
      FoldOn(process, INIT, m, data);
      message := m + data;
      if left == 0 {
        assert message == m;
        return;
      }
      Count(left, m);
      if offset == 0 {
        assert t + data == data[0..];
        Blocks(data, 0);
      } else {
        var copy := if offset + left > BLOCK then BLOCK - offset else left;
        Fill(offset, data[..copy], t);
        if offset + copy < BLOCK {
          Short(process, abcd, t, data, copy);
          return;
        }
        FirstBlock(process, abcd, t, data, copy);
        assert buf[..] == buf[..BLOCK];
        abcd := process(abcd, buf[..]);
        Blocks(data, copy);
      }
    }

    /** `belle_sip_md5_finish`. */
    method Finish() returns (digest: seq<byte>)
      requires Valid()
      modifies this, buf
      ensures digest == Hash(process, old(message)) && Valid()
    {
      ghost var m := message;
      var length := Octets(count0) + Octets(count1);
      LengthWords(count0, count1, 8 * |m| % LONG);
      Offset(count0, count1, |m|);
      PadSize(count0, |m|);
      var pad: seq<byte> := [0x80] + Zeros(63);
      var n := (55 - count0 / 8) % BLOCK + 1;
      assert pad[..n] == Padding(|m|);
      Append(pad[..n]);
      Append(length);
      digest := Octets(abcd.a) + Octets(abcd.b) + Octets(abcd.c) + Octets(abcd.d);
    }
  }

  lemma LengthWords(count0: nat, count1: nat, x: nat)
    requires count0 < WORD && count1 < WORD && count1 * WORD + count0 == x
    ensures x % WORD == count0 && x / WORD == count1
  {
  }

  lemma PadSize(count0: nat, n: nat)
    requires count0 / 8 % BLOCK == n % BLOCK
    ensures (55 - count0 / 8) % BLOCK == (55 - n) % BLOCK
  {
  }

  /** A piece that does not fill the block is kept. */
  lemma Short(process: (Words, seq<byte>) -> Words, s: Words, t: seq<byte>, data: seq<byte>, copy: nat)
    requires copy == |data| && |t| + copy < BLOCK
    ensures data[..copy] == data && Fold(process, s, t + data) == s && Rest(t + data) == t + data
  {
  }

  /** A piece that fills the block: the block, and then what is behind it in the piece. */
  lemma FirstBlock(process: (Words, seq<byte>) -> Words, s: Words, t: seq<byte>, data: seq<byte>, copy: nat)
    requires copy <= |data| && |t| + copy == BLOCK
    ensures Fold(process, s, t + data) == Fold(process, process(s, t + data[..copy]), data[copy..])
    ensures Rest(t + data) == Rest(data[copy..])
  {
    assert (t + data)[..BLOCK] == t + data[..copy] && (t + data)[BLOCK..] == data[copy..];
  }
}
