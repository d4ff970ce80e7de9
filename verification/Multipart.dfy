/**
 A multipart body, sent in chunks (`bodyhandler.c`): a separator, the header and the content of each part, and the
 terminator. The parts are memory body handlers.
 */
module Multipart {
  import opened Bits
  import opened Bytes

  /** A part: its header text, empty if it has none, and its content. */
  datatype Part = Part(header: seq<byte>, data: seq<byte>)

  datatype PartList = Nil | Cons(head: Part, tail: PartList)

  datatype Result = Continue | Stop | Overflow

  /** The separator and the terminator; what they are does not matter. */
  datatype Marks = Marks(separator: seq<byte>, end: seq<byte>)

  /** The parts from the current one on, how much of its content was sent, and the sizes of the whole body. */
  datatype Body = Body(parts: PartList, sent: nat, expected: nat, transfered: nat)

  // ---------------------------------------------------------------- sending, as a function

  /** A part's `send_chunk`: its next octets, and whether they are the last. */
  function SendPart(p: Part, sent: nat, size: nat): (seq<byte>, Result)
    requires sent <= |p.data|
  {
    var n := Min(size, |p.data| - sent);
    (p.data[sent..sent + n], if n == |p.data| - sent then Stop else Continue)
  }

  /** What goes in front of the next octets of the part. */
  function Prefix(m: Marks, p: Part, sent: nat): seq<byte> {
    if sent == 0 then m.separator + p.header else []
  }

  /** The multipart body's own part of it, with room for `size` octets. */
  function SendParts(m: Marks, b: Body, size: nat): (seq<byte>, Body, Result)
    requires b.parts.Cons? && b.sent <= |b.parts.head.data| && size >= |m.end|
  {
    var room := size - |m.end|;
    var p := b.parts.head;
    var prefix := Prefix(m, p, b.sent);
    if b.sent == 0 && room < |prefix| + 1 then ([], b.(transfered := b.transfered + room), Overflow)
    else
      var (data, r) := SendPart(p, b.sent, room - |prefix|);
      var chunk := prefix + data;
      var next := b.(transfered := b.transfered + |chunk|);
      if r == Continue then (chunk, next.(sent := b.sent + |data|), Continue)
      else if b.parts.tail.Cons? then (chunk, next.(parts := b.parts.tail, sent := 0), Continue)
      else (chunk + m.end, next.(sent := b.sent + |data|, transfered := b.transfered + |chunk| + |m.end|), Stop)
  }

  /** `belle_sip_body_handler_send_chunk`: the chunk, what comes after it, and the result. */
  function Send(m: Marks, b: Body, size: nat): (seq<byte>, Body, Result)
    requires b.parts.Cons? && b.sent <= |b.parts.head.data| && b.transfered <= b.expected
    requires Min(size, b.expected - b.transfered) >= |m.end|
  {
    var (chunk, next, r) := SendParts(m, b, Min(size, b.expected - b.transfered));
    (chunk, next, if next.transfered == next.expected then Stop else r)
  }

  // ---------------------------------------------------------------- the whole body

  function Whole(m: Marks, ps: PartList): seq<byte> {
    if ps == Nil then m.end else m.separator + ps.head.header + ps.head.data + Whole(m, ps.tail)
  }

  /** What `add_part` adds up. */
  function Expected(m: Marks, ps: PartList): nat {
    if ps == Nil then |m.end| else |ps.head.data| + |m.separator| + |ps.head.header| + Expected(m, ps.tail)
  }

  lemma {:induction false} ExpectedIsWhole(m: Marks, ps: PartList)
    ensures Expected(m, ps) == |Whole(m, ps)| >= |m.end|
  {
    if ps != Nil {
      ExpectedIsWhole(m, ps.tail);
    }
  }

  function Started(m: Marks, ps: PartList): Body {
    Body(ps, 0, Expected(m, ps), 0)
  }

  /** What is still to be sent. */
  function Left(m: Marks, b: Body): seq<byte>
    requires b.parts.Cons? && b.sent <= |b.parts.head.data|
  {
    Prefix(m, b.parts.head, b.sent) + b.parts.head.data[b.sent..] + Whole(m, b.parts.tail)
  }

  /** The sizes agree with what is still to be sent. */
  predicate Sound(m: Marks, b: Body) {
    b.parts.Cons? && (b.sent == 0 || b.sent < |b.parts.head.data|) && b.expected == b.transfered + |Left(m, b)|
  }

  /** The last part has a content. */
  predicate EndsFull(ps: PartList)
    requires ps.Cons?
  {
    if ps.tail == Nil then ps.head.data != [] else EndsFull(ps.tail)
  }

  /** A buffer of that size has room for the marks, the header of any part and an octet. */
  predicate Roomy(m: Marks, ps: PartList, size: nat) {
    size >= |m.end| && (ps.Cons? ==> size >= |m.end| + |m.separator| + |ps.head.header| + 1 && Roomy(m, ps.tail, size))
  }

  // ---------------------------------------------------------------- one chunk

  lemma LeftSize(m: Marks, b: Body)
    requires Sound(m, b)
    ensures |Left(m, b)| == |Prefix(m, b.parts.head, b.sent)| + |b.parts.head.data| - b.sent + |Whole(m, b.parts.tail)|
    ensures |Whole(m, b.parts.tail)| >= |m.end| && (b.parts.tail == Nil ==> |Whole(m, b.parts.tail)| == |m.end|)
  {
    ExpectedIsWhole(m, b.parts.tail);
  }

  /** Part of a part's content is sent. */
  lemma PartGoesOn(m: Marks, b: Body, n: nat, chunk: seq<byte>, next: Body)
    requires Sound(m, b) && b.sent + n < |b.parts.head.data| && (b.sent == 0 ==> n > 0)
    requires chunk == Prefix(m, b.parts.head, b.sent) + b.parts.head.data[b.sent..b.sent + n]
    requires next == b.(sent := b.sent + n, transfered := b.transfered + |chunk|)
    ensures Sound(m, next) && Left(m, b) == chunk + Left(m, next)
  {
    var data := b.parts.head.data;
    assert data[b.sent..] == data[b.sent..b.sent + n] + data[b.sent + n..];
    assert Left(m, next) == data[b.sent + n..] + Whole(m, b.parts.tail);
  }

  /** A part ends, and another one follows. */
  lemma PartEnds(m: Marks, b: Body, chunk: seq<byte>, next: Body)
    requires Sound(m, b) && b.parts.tail.Cons?
    requires chunk == Prefix(m, b.parts.head, b.sent) + b.parts.head.data[b.sent..]
    requires next == b.(parts := b.parts.tail, sent := 0, transfered := b.transfered + |chunk|)
    ensures Sound(m, next) && Left(m, b) == chunk + Left(m, next)
  {
    var q := b.parts.tail.head;
    assert q.data[0..] == q.data;
    assert Left(m, next) == Whole(m, b.parts.tail);
  }

  /** How a chunk with the next `n` octets of the part comes out. */
  function Given(m: Marks, b: Body, n: nat, chunk: seq<byte>): (seq<byte>, Body, Result)
    requires b.parts.Cons?
  {
    var next := b.(transfered := b.transfered + |chunk|);
    if b.sent + n < |b.parts.head.data| then (chunk, next.(sent := b.sent + n), Continue)
    else if b.parts.tail.Cons? then (chunk, next.(parts := b.parts.tail, sent := 0), Continue)
    else (chunk + m.end, next.(sent := b.sent + n, transfered := next.transfered + |m.end|), Stop)
  }

  lemma SendIs(m: Marks, b: Body, size: nat, room: nat, prefix: seq<byte>, n: nat)
    requires Sound(m, b) && size == room + |m.end|
    requires prefix == Prefix(m, b.parts.head, b.sent) && (b.sent == 0 ==> room >= |prefix| + 1)
    requires n == Min(room - |prefix|, |b.parts.head.data| - b.sent)
    ensures SendParts(m, b, size) == Given(m, b, n, prefix + b.parts.head.data[b.sent..b.sent + n])
  {
    var data := b.parts.head.data[b.sent..b.sent + n];
    assert SendPart(b.parts.head, b.sent, room - |prefix|).0 == data;
  }

  /** The chunk is what comes next, and the last one ends the body. */
  ghost predicate IsNext(m: Marks, b: Body, chunk: seq<byte>, next: Body, r: Result)
    requires b.parts.Cons? && b.sent <= |b.parts.head.data|
  {
    (r == Continue ==> Sound(m, next) && Left(m, b) == chunk + Left(m, next))
    && (r == Stop ==> Left(m, b) == chunk && b.parts.tail == Nil)
  }

  lemma GivenIsNext(m: Marks, b: Body, n: nat, chunk: seq<byte>)
    requires Sound(m, b) && b.sent + n <= |b.parts.head.data| && (b.sent == 0 ==> n > 0 || b.parts.head.data == [])
    requires chunk == Prefix(m, b.parts.head, b.sent) + b.parts.head.data[b.sent..b.sent + n]
    ensures var (c, next, r) := Given(m, b, n, chunk); IsNext(m, b, c, next, r)
  {
    var (c, next, r) := Given(m, b, n, chunk);
    if b.sent + n < |b.parts.head.data| {
      PartGoesOn(m, b, n, chunk, next);
    } else {
      assert b.parts.head.data[b.sent..b.sent + n] == b.parts.head.data[b.sent..];
      if b.parts.tail.Cons? {
        PartEnds(m, b, chunk, next);
      }
    }
  }

  lemma PartsAreNext(m: Marks, b: Body, size: nat)
    requires Sound(m, b) && size >= |m.end|
    ensures var (chunk, next, r) := SendParts(m, b, size); IsNext(m, b, chunk, next, r)
  {
    var p := b.parts.head;
    var room := size - |m.end|;
    var prefix := Prefix(m, p, b.sent);
    if b.sent > 0 || room >= |prefix| + 1 {
      var n := Min(room - |prefix|, |p.data| - b.sent);
      SendIs(m, b, size, room, prefix, n);
      GivenIsNext(m, b, n, prefix + p.data[b.sent..b.sent + n]);
    }
  }

  lemma HasRoom(m: Marks, b: Body, size: nat)
    requires Sound(m, b) && size >= |m.end|
    ensures Min(size, b.expected - b.transfered) >= |m.end|
  {
    LeftSize(m, b);
  }

  /** A call that does not say that the body ended has not sent all of it. */
  lemma NotDone(m: Marks, b: Body, room: nat, chunk: seq<byte>, next: Body, r: Result)
    requires Sound(m, b) && m.end != [] && |m.end| <= room <= b.expected - b.transfered
    requires SendParts(m, b, room) == (chunk, next, r) && IsNext(m, b, chunk, next, r)
    ensures r != Stop ==> next.transfered != next.expected
  {
    if r == Continue {
      LeftSize(m, next);
    }
  }

  lemma {:induction false} ChunkIsNext(m: Marks, b: Body, size: nat)
    requires Sound(m, b) && m.end != [] && size >= |m.end|
    ensures Min(size, b.expected - b.transfered) >= |m.end|
    ensures var (chunk, next, r) := Send(m, b, size); IsNext(m, b, chunk, next, r)
  {
    HasRoom(m, b, size);
    var room := Min(size, b.expected - b.transfered);
    PartsAreNext(m, b, room);
    var (chunk, next, r) := SendParts(m, b, room);
    NotDone(m, b, room, chunk, next, r);
    assert Send(m, b, size) == (chunk, next, r);
  }

  // ---------------------------------------------------------------- the whole transfer

  /** Every buffer has room for the terminator. */
  predicate Usable(m: Marks, sizes: seq<nat>) {
    forall i :: 0 <= i < |sizes| ==> sizes[i] >= |m.end|
  }

  predicate AllRoomy(m: Marks, ps: PartList, sizes: seq<nat>) {
    forall i :: 0 <= i < |sizes| ==> Roomy(m, ps, sizes[i])
  }

  /** The chunks of one call after another, put together, until one does not say to continue. */
  function Transfer(m: Marks, b: Body, sizes: seq<nat>): (seq<byte>, Result)
    requires Sound(m, b) && m.end != [] && Usable(m, sizes)
    decreases |sizes|
  {
    if sizes == [] then ([], Continue)
    else
      ChunkIsNext(m, b, sizes[0]);
      var (chunk, next, r) := Send(m, b, sizes[0]);
      if r != Continue then (chunk, r)
      else
        var (rest, r') := Transfer(m, next, sizes[1..]);
        (chunk + rest, r')
  }

  lemma StartsSound(m: Marks, ps: PartList)
    requires ps.Cons?
    ensures Sound(m, Started(m, ps)) && Left(m, Started(m, ps)) == Whole(m, ps)
  {
    ExpectedIsWhole(m, ps);
    assert ps.head.data[0..] == ps.head.data;
    assert Left(m, Started(m, ps)) == m.separator + ps.head.header + ps.head.data + Whole(m, ps.tail);
  }

  lemma {:induction false} TransferConserves(m: Marks, b: Body, sizes: seq<nat>)
    requires Sound(m, b) && m.end != [] && Usable(m, sizes)
    ensures var (sent, r) := Transfer(m, b, sizes);
            (r == Stop ==> sent == Left(m, b)) && (r == Continue ==> sent < Left(m, b))
    decreases |sizes|
  {
    LeftSize(m, b);
    if sizes != [] {
      ChunkIsNext(m, b, sizes[0]);
      var (chunk, next, r) := Send(m, b, sizes[0]);
      if r == Continue {
        TransferConserves(m, next, sizes[1..]);
        var (rest, r') := Transfer(m, next, sizes[1..]);
        if r' == Continue {
          assert chunk + rest < chunk + Left(m, next);
        }
      }
    }
  }

  /** With room enough a chunk is neither refused nor empty. */
  lemma ChunkMoves(m: Marks, b: Body, size: nat)
    requires Sound(m, b) && m.end != [] && m.separator != [] && EndsFull(b.parts) && Roomy(m, b.parts, size)
    ensures Min(size, b.expected - b.transfered) >= |m.end|
    ensures var (chunk, next, r) := Send(m, b, size);
            r != Overflow && (r == Continue ==> chunk != [] && EndsFull(next.parts)
                                                && (next.parts == b.parts || next.parts == b.parts.tail))
  {
    LeftSize(m, b);
    ExpectedIsWhole(m, b.parts.tail);
    var p := b.parts.head;
    var room := Min(size, b.expected - b.transfered) - |m.end|;
    var prefix := Prefix(m, p, b.sent);
    if b.parts.tail.Cons? {
      ExpectedIsWhole(m, b.parts.tail.tail);
    }
    assert room >= |prefix| + 1;
    SendIs(m, b, room + |m.end|, room, prefix, Min(room - |prefix|, |p.data| - b.sent));
  }

  lemma RoomyTail(m: Marks, ps: PartList, sizes: seq<nat>, qs: PartList)
    requires AllRoomy(m, ps, sizes) && sizes != [] && (qs == ps || (ps.Cons? && qs == ps.tail))
    ensures AllRoomy(m, qs, sizes[1..])
  {
    forall i | 0 <= i < |sizes| - 1 ensures Roomy(m, qs, sizes[1..][i]) {
      assert Roomy(m, ps, sizes[i + 1]);
    }
  }

  lemma {:induction false} TransferEnds(m: Marks, b: Body, sizes: seq<nat>)
    requires Sound(m, b) && m.end != [] && m.separator != [] && EndsFull(b.parts)
    requires Usable(m, sizes) && AllRoomy(m, b.parts, sizes)
    ensures Transfer(m, b, sizes).1 != Overflow && (|sizes| >= |Left(m, b)| ==> Transfer(m, b, sizes).1 == Stop)
    decreases |sizes|
  {
    LeftSize(m, b);
    if sizes != [] {
      assert Roomy(m, b.parts, sizes[0]);
      ChunkIsNext(m, b, sizes[0]);
      ChunkMoves(m, b, sizes[0]);
      var (chunk, next, r) := Send(m, b, sizes[0]);
      if r == Continue {
        RoomyTail(m, b.parts, sizes, next.parts);
        TransferEnds(m, next, sizes[1..]);
      }
    }
  }

  /** When the last part has no content, no chunk ends the body. */
  lemma NoLastChunk(m: Marks, b: Body, size: nat)
    requires Sound(m, b) && m.end != [] && !EndsFull(b.parts) && size >= |m.end|
    ensures Min(size, b.expected - b.transfered) >= |m.end|
    ensures var (chunk, next, r) := Send(m, b, size); r != Stop
                                                      && (r == Continue ==> next.parts.Cons? && !EndsFull(next.parts))
  {
    LeftSize(m, b);
    ChunkIsNext(m, b, size);
    if b.parts.tail.Cons? && (b.sent > 0 || Min(size, b.expected - b.transfered) - |m.end| >= |Prefix(m, b.parts.head,
      b.sent)| + 1) {
      var prefix := Prefix(m, b.parts.head, b.sent);
      var room := Min(size, b.expected - b.transfered) - |m.end|;
      SendIs(m, b, room + |m.end|, room, prefix, Min(room - |prefix|, |b.parts.head.data| - b.sent));
    }
  }

  lemma {:induction false} NeverEnds(m: Marks, b: Body, sizes: seq<nat>)
    requires Sound(m, b) && m.end != [] && Usable(m, sizes) && !EndsFull(b.parts)
    ensures Transfer(m, b, sizes).1 != Stop
    decreases |sizes|
  {
    if sizes != [] {
      ChunkIsNext(m, b, sizes[0]);
      NoLastChunk(m, b, sizes[0]);
      var (chunk, next, r) := Send(m, b, sizes[0]);
      if r == Continue {
        NeverEnds(m, next, sizes[1..]);
      }
    }
  }

  /**
   What is sent is the body, in order, and the end is said exactly when all of it was sent. With buffers that are
   large enough that happens, unless the last part has no content: then it never does.
   */
  lemma {:induction false} Conservation(m: Marks, ps: PartList, sizes: seq<nat>)
    requires ps.Cons? && m.end != [] && m.separator != [] && AllRoomy(m, ps, sizes)
    ensures Sound(m, Started(m, ps)) && Usable(m, sizes) && Started(m, ps).expected == |Whole(m, ps)|
    ensures var (sent, r) := Transfer(m, Started(m, ps), sizes);
            (r == Stop ==> sent == Whole(m, ps)) && (r == Continue ==> sent < Whole(m, ps))
            && (EndsFull(ps) ==> r != Overflow && (|sizes| >= |Whole(m, ps)| ==> r == Stop))
            && (!EndsFull(ps) ==> r != Stop)
  {
    StartsSound(m, ps);
    ExpectedIsWhole(m, ps);
    assert Usable(m, sizes) by {
      assert forall i :: 0 <= i < |sizes| ==> Roomy(m, ps, sizes[i]);
    }
    TransferConserves(m, Started(m, ps), sizes);
    if EndsFull(ps) {
      TransferEnds(m, Started(m, ps), sizes);
    } else {
      NeverEnds(m, Started(m, ps), sizes);
    }
  }

  // ---------------------------------------------------------------- the code

  /** A memory body handler that is a part of a multipart body. */
  class PartHandler {
    const header: seq<byte>
    const buffer: seq<byte>
    var transfered: nat

    constructor (header: seq<byte>, buffer: seq<byte>)
      ensures this.header == header && this.buffer == buffer && transfered == 0
    {
      this.header, this.buffer, transfered := header, buffer, 0;
    }

    function AsPart(): Part {
      Part(header, buffer)
    }

    /** `belle_sip_body_handler_send_chunk` of the part: `n` octets, at `at` of the buffer. */
    method SendChunk(out: array<byte>, at: nat, size: nat) returns (n: nat, r: Result)
      requires transfered <= |buffer| && at + size <= out.Length
      modifies this`transfered, out
      ensures n <= size && transfered == old(transfered) + n <= |buffer| && out[..at] == old(out[..at])
      ensures (out[at..at + n], r) == SendPart(AsPart(), old(transfered), size)
    {
      n := size;
      if |buffer| != 0 && |buffer| - transfered < n {
        n := |buffer| - transfered;
      }
      n := Min(n, |buffer| - transfered);
      forall i: nat | i < n {
        out[at + i] := buffer[transfered + i];
      }
      assert out[at..at + n] == buffer[transfered..transfered + n];
      r := if |buffer| - transfered == n then Stop else Continue;
      transfered := transfered + n;
    }
  }

  function List(ps: seq<PartHandler>): PartList {
    if ps == [] then Nil else Cons(ps[0].AsPart(), List(ps[1..]))
  }

  lemma {:induction false} ExpectedMore(m: Marks, ps: seq<PartHandler>, p: PartHandler)
    ensures Expected(m, List(ps + [p])) == Expected(m, List(ps)) + |p.buffer| + |m.separator| + |p.header|
    decreases |ps|
  {
    if ps == [] {
      assert ([p])[1..] == [];
    } else {
      assert (ps + [p])[1..] == ps[1..] + [p];
      ExpectedMore(m, ps[1..], p);
    }
  }

  /**
   What the multipart body's own part of a call gives: `n` octets are counted, `chunk` of them unless it is refused.
   */
  predicate Gives(m: Marks, b: Body, size: nat, chunk: seq<byte>, n: nat, next: Body, r: Result)
    requires b.parts.Cons? && b.sent <= |b.parts.head.data| && size >= |m.end|
  {
    var (c, x, q) := SendParts(m, b, size);
    q == r && x == next.(transfered := b.transfered + n) && next.transfered == b.transfered
      && (r != Overflow ==> c == chunk)
  }

  /** The call as a whole. */
  predicate Sends(m: Marks, b: Body, size: nat, chunk: seq<byte>, next: Body, r: Result)
    requires b.parts.Cons? && b.sent <= |b.parts.head.data| && b.transfered <= b.expected
  {
    Min(size, b.expected - b.transfered) >= |m.end|
    && var (c, x, q) := Send(m, b, size); q == r && x == next && (r != Overflow ==> c == chunk)
  }

  /** The rest of the call counts them. */
  lemma Counts(m: Marks, b: Body, size: nat, chunk: seq<byte>, n: nat, next: Body, r: Result, t: Body, s: Result)
    requires Sound(m, b) && m.end != [] && size >= |m.end| && Min(size, b.expected - b.transfered) >= |m.end|
    requires Gives(m, b, Min(size, b.expected - b.transfered), chunk, n, next, r)
    requires t == next.(transfered := b.transfered + n) && s == if t.transfered == t.expected then Stop else r
    ensures Sends(m, b, size, chunk, t, s) && (s == Continue ==> Sound(m, t) && t.transfered <= t.expected)
  {
    ChunkIsNext(m, b, size);
  }

  class MultipartHandler {
    const marks: Marks
    var parts: seq<PartHandler>
    var expected: nat
    var transfered: nat

    ghost predicate Valid()
      reads this, parts
    {
      Apart() && transfered <= expected
    }

    /** The parts are different objects, and only of the first one something was sent. */
    ghost predicate Apart()
      reads this, parts
    {
      parts != [] && parts[0].transfered <= |parts[0].buffer|
      && (forall i :: 1 <= i < |parts| ==> parts[i].transfered == 0)
      && forall i, j :: 0 <= i < j < |parts| ==> parts[i] != parts[j]
    }

    ghost function View(): Body
      reads this, parts
      requires parts != []
    {
      Body(List(parts), parts[0].transfered, expected, transfered)
    }

    constructor (marks: Marks, first: PartHandler)
      requires first.transfered == 0
      ensures Valid() && parts == [first] && this.marks == marks && View() == Started(marks, List(parts))
    {
      this.marks, parts, transfered := marks, [first], 0;
      expected := |marks.end| + |first.buffer| + |marks.separator| + |first.header|;
      new;
      ExpectedMore(marks, [], first);
      assert [] + [first] == [first];
    }

    /** `belle_sip_multipart_body_handler_add_part`, before anything was sent. */
    method AddPart(part: PartHandler)
      requires Valid() && View() == Started(marks, List(parts)) && part.transfered == 0 && part !in parts
      modifies this`expected, this`parts
      ensures Valid() && parts == old(parts) + [part] && View() == Started(marks, List(parts))
    {
      ExpectedMore(marks, parts, part);
      expected := expected + |part.buffer| + |marks.separator| + |part.header|;
      parts := parts + [part];
    }

    /** What goes in front of a part, if nothing of it was sent yet. */
    method PutPrefix(out: array<byte>, part: PartHandler) returns (at: nat)
      requires |Prefix(marks, part.AsPart(), part.transfered)| <= out.Length
      modifies out
      ensures at == |Prefix(marks, part.AsPart(), part.transfered)|
              && out[..at] == Prefix(marks, part.AsPart(), part.transfered)
    {
      at := 0;
      if part.transfered == 0 {
        at := |marks.separator|;
        forall i | 0 <= i < |marks.separator| {
          out[i] := marks.separator[i];
        }
        forall i | 0 <= i < |part.header| {
          out[at + i] := part.header[i];
        }
        at := at + |part.header|;
        assert out[..at] == marks.separator + part.header;
      }
    }

    /** The separator and the header of the part, if nothing of it was sent yet, and its next octets. */
    method SendOne(out: array<byte>, part: PartHandler, room: nat) returns (n: nat, r: Result)
      requires part.transfered <= |part.buffer| && |Prefix(marks, part.AsPart(), part.transfered)| <= room <= out.Length
      modifies part, out
      ensures var sent := old(part.transfered);
              var prefix := Prefix(marks, part.AsPart(), sent);
              var (data, q) := SendPart(part.AsPart(), sent, room - |prefix|);
              n == |prefix + data| <= room && out[..n] == prefix + data && q == r && part.transfered == sent + |data|
    {
      var at := PutPrefix(out, part);
      ghost var prefix := out[..at];
      n, r := part.SendChunk(out, at, room - at);
      assert out[..at + n] == out[..at] + out[at..at + n];
      n := n + at;
    }

    /** The terminator behind the first `n` octets. */
    method PutEnd(out: array<byte>, n: nat)
      requires n + |marks.end| <= out.Length
      modifies out
      ensures out[..n + |marks.end|] == old(out[..n]) + marks.end
    {
      forall i | 0 <= i < |marks.end| {
        out[n + i] := marks.end[i];
      }
    }

    /** Behind the last octets of a part: the next part, or the terminator. */
    method FinishPart(out: array<byte>, n: nat, r: Result) returns (k: nat, q: Result)
      requires parts != [] && n + |marks.end| <= out.Length
      modifies this`parts, out
      ensures |old(parts)| > 1 ==> parts == old(parts)[1..] && k == n && q == Continue && out[..n] == old(out[..n])
      ensures |old(parts)| == 1 ==> parts == old(parts) && k == n + |marks.end| && q == r
                                    && out[..k] == old(out[..n]) + marks.end
    {
      k, q := n, r;
      if |parts| > 1 {
        parts := parts[1..];
        q := Continue;
      } else {
        PutEnd(out, n);
        k := n + |marks.end|;
      }
    }

    /**
     `send_chunk` of the multipart body itself, with room for `size` octets; `n` of them are given when it is not
     refused.
     */
    method SendFromParts(out: array<byte>, size: nat) returns (n: nat, r: Result)
      requires Valid() && |marks.end| <= size <= out.Length
      modifies this`parts, parts[0], out
      ensures Apart() && n <= size
      ensures Gives(marks, old(View()), size, out[..n], n, View(), r)
    {
      var part := parts[0];
      ghost var b := View();
      assert b.parts == Cons(part.AsPart(), List(parts[1..])) && (b.parts.tail.Cons? <==> |parts| > 1);
      var room: nat := size - |marks.end|;
      if part.transfered == 0 && room < |marks.separator| + |part.header| + 1 {
        return room, Overflow;
      }
      n, r := SendOne(out, part, room);
      if r != Continue {
        n, r := FinishPart(out, n, r);
      }
    }

    /** Counts what was sent; the body is at its end when all of it is. */
    method Count(n: nat, q: Result) returns (r: Result)
      requires parts != []
      modifies this`transfered
      ensures View() == old(View()).(transfered := old(View()).transfered + n)
      ensures r == if View().transfered == View().expected then Stop else q
    {
      transfered := transfered + n;
      r := if transfered == expected then Stop else q;
    }

    /** `belle_sip_body_handler_send_chunk` of the multipart body. */
    method SendChunk(out: array<byte>, size: nat) returns (n: nat, r: Result)
      requires Valid() && Sound(marks, View()) && marks.end != [] && |marks.end| <= size <= out.Length
      modifies this`parts, this`transfered, parts[0], out
      ensures Apart() && n <= size && (r == Continue ==> Valid() && Sound(marks, View()))
      ensures Sends(marks, old(View()), size, out[..n], View(), r)
    {
      ghost var b := View();
      HasRoom(marks, b, size);
      var q: Result;
      n, q := SendFromParts(out, Min(size, expected - transfered));
      ghost var next := View();
      r := Count(n, q);
      Counts(marks, b, size, out[..n], n, next, q, View(), r);
    }
  }
}
