// Octets, big-endian fields and C strings, as the wire formats below use them.
module Bytes {
  type byte = x: int | 0 <= x < 256

  /** Both octets of a 16-bit field in network order. */
  function Be16(n: nat): (s: seq<byte>) {
    [(n / 256) % 256, n % 256]
  }

  function Read16(s: seq<byte>, p: nat): (n: nat)
    requires p + 2 <= |s|
  {
    (s[p] as int) * 256 + s[p + 1]
  }

  /** `s` with the octets `b` written at `p`. */
  function Put(s: seq<byte>, p: nat, b: seq<byte>): (r: seq<byte>)
    requires p + |b| <= |s|
    ensures |r| == |s|
    ensures r[..p] == s[..p] && r[p + |b|..] == s[p + |b|..] && r[p..p + |b|] == b
  {
    s[..p] + b + s[p + |b|..]
  }

  function Zeros(n: nat): (s: seq<byte>)
    ensures |s| == n && forall i :: 0 <= i < n ==> s[i] == 0
  {
    seq(n, _ => 0)
  }

  /** Reads or pieces put together. */
  function Joined(pieces: seq<seq<byte>>): seq<byte> {
    if pieces == [] then [] else pieces[0] + Joined(pieces[1..])
  }

  function Lower(c: byte): byte {
    if 65 <= c <= 90 then c + 32 else c
  }

  /** What a C string function sees of a buffer: everything before the first NUL. */
  function CStr(s: seq<byte>): seq<byte> {
    if s == [] || s[0] == 0 then [] else [s[0]] + CStr(s[1..])
  }

  function LowerAll(s: seq<byte>): seq<byte> {
    seq(|s|, i requires 0 <= i < |s| => Lower(s[i]))
  }

  /** `strcasecmp(a, b) == 0` in the C locale. */
  predicate CaseEq(a: seq<byte>, b: seq<byte>) {
    LowerAll(CStr(a)) == LowerAll(CStr(b))
  }

  predicate NoNul(s: seq<byte>) {
    forall i :: 0 <= i < |s| ==> s[i] != 0
  }

  lemma {:induction false} CStrOfText(s: seq<byte>)
    requires NoNul(s)
    ensures CStr(s) == s
  {
    if s != [] {
      CStrOfText(s[1..]);
    }
  }

  const CR: byte := 13
  const LF: byte := 10

  /** An end of line stands at `i`. */
  predicate CrLf(s: seq<byte>, i: nat) {
    i + 2 <= |s| && s[i] == CR && s[i + 1] == LF
  }
}
