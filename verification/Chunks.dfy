/**
 Chunked bodies (section 3.6.1 of RFC 2616), as `acquire_chuncked_body` receives them piece by piece.
 */
module Chunks {
  import opened Bytes
  import Framing

  /** A chunk: the line that gives its size, and its data. */
  datatype Chunk = Chunk(line: seq<byte>, data: seq<byte>)

  datatype ChunkList = NoMore | More(head: Chunk, tail: ChunkList)

  const EOL: seq<byte> := [CR, LF]

  /** `strstr` of an end of line: the first one from `i` on before any NUL, or the length. */
  function Line(s: seq<byte>, i: nat): (r: nat)
    requires i <= |s|
    ensures i <= r <= |s| && (r < |s| ==> CrLf(s, r))
    decreases |s| - i
  {
    if i == |s| then i else if s[i] == 0 then |s| else if CrLf(s, i) then i else Line(s, i + 1)
  }

  // ---------------------------------------------------------------- the parser, as a function

  /** `size` is what the current chunk has; none while its size is being read. */
  datatype Size = Unknown | Known(n: nat)

  /** What lies unread, the current chunk and how much of it came, the body so far, whether it ended or was given up. */
  datatype Body = Body(pending: seq<byte>, size: Size, got: nat, body: seq<byte>, ended: bool, broken: bool) {
    predicate Valid() {
      size.Known? ==> got < size.n
    }
  }

  /** The ends of line in front are skipped. */
  function Skipped(s: seq<byte>): (r: seq<byte>)
    ensures |r| <= |s|
    decreases |s|
  {
    if CrLf(s, 0) then Skipped(s[2..]) else s
  }

  /** How a turn of the loop ends: the body is done, more data is needed, or the loop goes on. */
  datatype Turned = Done(b: Body) | Wait(b: Body) | On(b: Body)

  /** The size line; `hex` is `strtol` to base 16.  On an unreadable size the message is given up. */
  function LineTurn(hex: seq<byte> -> int, b: Body): Turned {
    var s := b.pending;
    var e := Line(s, 0);
    if e == |s| then Wait(b)
    else if hex(s) == 0 then Done(b.(pending := if e + 4 <= |s| then s[e + 4..] else [], ended := true))
    else if hex(s) < 0 then Done(b.(broken := true))
    else On(b.(pending := s[e + 2..], size := Known(hex(s)), got := 0))
  }

  function SizeTurn(hex: seq<byte> -> int, b: Body): Turned {
    LineTurn(hex, b.(pending := Skipped(b.pending)))
  }

  /** The data of the current chunk, as far as it came. */
  function DataTurn(b: Body): Turned
    requires b.Valid() && b.size.Known?
  {
    var n := if b.size.n - b.got < |b.pending| then b.size.n - b.got else |b.pending|;
    var c := b.(pending := b.pending[n..], got := b.got + n, body := b.body + b.pending[..n]);
    if c.got == c.size.n then (if c.pending == [] then Wait(c.(size := Unknown)) else On(c.(size := Unknown)))
                               else Wait(c)
  }

  function Turn(hex: seq<byte> -> int, b: Body): Turned
    requires b.Valid()
  {
    if b.size.Known? then DataTurn(b)
    else
      var t := SizeTurn(hex, b);
      if t.On? then DataTurn(t.b) else t
  }

  lemma DataTurnConsumes(b: Body)
    requires b.Valid() && b.size.Known?
    ensures DataTurn(b).b.Valid() && |DataTurn(b).b.pending| <= |b.pending|
    ensures DataTurn(b).On? ==> |DataTurn(b).b.pending| < |b.pending|
  {
  }

  lemma SizeTurnConsumes(hex: seq<byte> -> int, b: Body)
    requires b.Valid() && b.size.Unknown?
    ensures SizeTurn(hex, b).b.Valid() && |SizeTurn(hex, b).b.pending| <= |b.pending|
    ensures SizeTurn(hex, b).On? ==> SizeTurn(hex, b).b.size.Known?
  {
  }

  lemma TurnConsumes(hex: seq<byte> -> int, b: Body)
    requires b.Valid()
    ensures Turn(hex, b).b.Valid() && (Turn(hex, b).On? ==> |Turn(hex, b).b.pending| < |b.pending|)
  {
    if b.size.Known? {
      DataTurnConsumes(b);
    } else {
      SizeTurnConsumes(hex, b);
      if SizeTurn(hex, b).On? {
        DataTurnConsumes(SizeTurn(hex, b).b);
      }
    }
  }

  function Acquire(hex: seq<byte> -> int, b: Body): Body
    requires b.Valid()
    decreases |b.pending|
  {
    TurnConsumes(hex, b);
    var t := Turn(hex, b);
    if t.On? then Acquire(hex, t.b) else t.b
  }

  /** An unreadable size gives the message up, with the body as far as it came. */
  lemma BadSizeBreaks(hex: seq<byte> -> int, b: Body)
    requires b.size.Unknown? && hex(Skipped(b.pending)) < 0 && Line(Skipped(b.pending), 0) < |Skipped(b.pending)|
    ensures Acquire(hex, b) == b.(pending := Skipped(b.pending), broken := true)
  {
  }

  // ---------------------------------------------------------------- well-formed bodies

  /** A line without an end of line or NUL in it, that reads as `n` whatever follows it. */
  ghost predicate SizeLine(hex: seq<byte> -> int, line: seq<byte>, n: nat) {
    line != [] && NoNul(line) && (forall i :: 0 <= i < |line| ==> line[i] != CR)
    && forall x: seq<byte> {:trigger hex(x)} :: line + EOL <= x ==> hex(x) == n
  }

  ghost predicate WellFormed(hex: seq<byte> -> int, cs: ChunkList) {
    cs.More? ==> cs.head.data != [] && SizeLine(hex, cs.head.line, |cs.head.data|) && WellFormed(hex, cs.tail)
  }

  /** The chunks, and the last one, whose line is `z`. */
  function Encoded(cs: ChunkList, z: seq<byte>): seq<byte> {
    if cs == NoMore then z + EOL + EOL else cs.head.line + EOL + cs.head.data + EOL + Encoded(cs.tail, z)
  }

  function Datas(cs: ChunkList): seq<byte> {
    if cs == NoMore then [] else cs.head.data + Datas(cs.tail)
  }

  /** What is still to come behind a chunk's data (`lead`), or behind its end of line. */
  function Coming(lead: bool, cs: ChunkList, z: seq<byte>): seq<byte> {
    (if lead then EOL else []) + Encoded(cs, z)
  }

  /** With `all` still unread, in the buffer or to come, the body is at the right place in `cs`. */
  ghost predicate Placed(b: Body, lead: bool, cs: ChunkList, z: seq<byte>, all: seq<byte>) {
    b.pending <= all && !b.ended && !b.broken
    && if b.size.Unknown? then all == Coming(lead, cs, z)
       else cs.More? && b.size.n == |cs.head.data| && b.got < b.size.n
            && all == cs.head.data[b.got..] + EOL + Encoded(cs.tail, z)
  }

  /** The body once everything came. */
  function Whole(b: Body, cs: ChunkList): seq<byte> {
    if b.size.Unknown? || cs == NoMore || b.got > |cs.head.data| then b.body + Datas(cs)
    else b.body + cs.head.data[b.got..] + Datas(cs.tail)
  }

  /** Too little came for another turn. */
  predicate Starved(b: Body, lead: bool, cs: ChunkList, z: seq<byte>) {
    if b.size.Known? then b.pending == []
    else |b.pending| < (if lead then 2 else 0) + |if cs == NoMore then z else cs.head.line| + 2
  }

  // ---------------------------------------------------------------- lines

  /** The last line and the empty one behind it end the body; what follows them is left for the next message. */
  lemma {:induction false} LastLineEnds(hex: seq<byte> -> int, b: Body, z: seq<byte>, rest: seq<byte>)
    requires b.size.Unknown? && SizeLine(hex, z, 0) && b.pending == z + EOL + EOL + rest
    ensures Acquire(hex, b) == b.(pending := rest, ended := true)
  {
    var s := b.pending;
    assert z + EOL <= s by {
      assert s == z + EOL + (EOL + rest);
    }
    assert s[0] == z[0];
    LineFound(s, z, 0);
    assert s[|z| + 4..] == rest;
  }

  lemma {:induction false} LineFound(s: seq<byte>, line: seq<byte>, i: nat)
    requires line + EOL <= s && NoNul(line) && (forall j :: 0 <= j < |line| ==> line[j] != CR) && i <= |line|
    ensures Line(s, i) == |line|
    decreases |line| - i
  {
    assert s[..|line| + 2] == line + EOL;
    assert forall j :: 0 <= j < |line| ==> s[j] == (line + EOL)[j];
    assert s[|line|] == (line + EOL)[|line|] && s[|line| + 1] == (line + EOL)[|line| + 1];
    if i < |line| {
      LineFound(s, line, i + 1);
    }
  }

  lemma {:induction false} LineMissing(s: seq<byte>, line: seq<byte>, i: nat)
    requires |s| < |line| + 2 && s <= line + EOL && NoNul(line) && (forall j :: 0 <= j < |line| ==> line[j] != CR)
             && i <= |s|
    ensures Line(s, i) == |s|
    decreases |s| - i
  {
    assert forall j :: 0 <= j < |s| ==> s[j] == (line + EOL)[j];
    if i < |s| {
      LineMissing(s, line, i + 1);
    }
  }

  /** The line that comes next: a chunk's, or the last one. */
  function NextLine(cs: ChunkList, z: seq<byte>): seq<byte> {
    if cs == NoMore then z else cs.head.line
  }

  lemma EncodedStarts(cs: ChunkList, z: seq<byte>)
    ensures NextLine(cs, z) + EOL <= Encoded(cs, z)
    ensures cs.More? ==> Encoded(cs, z)[|cs.head.line| + 2..] == cs.head.data + EOL + Encoded(cs.tail, z)
  {
    if cs.More? {
      assert cs.head.line + EOL + cs.head.data + EOL + Encoded(cs.tail, z)
             == cs.head.line + EOL + (cs.head.data + EOL + Encoded(cs.tail, z));
    }
  }

  /** The end of line behind a chunk's data is skipped once it is there, and nothing else is. */
  lemma SkipsLead(s: seq<byte>, lead: bool, cs: ChunkList, z: seq<byte>)
    requires s <= Coming(lead, cs, z) && NextLine(cs, z) != [] && NextLine(cs, z)[0] != CR
    ensures if lead && |s| >= 2 then Skipped(s) == s[2..] && s[2..] <= Encoded(cs, z) else Skipped(s) == s
  {
    EncodedStarts(cs, z);
    var e := Encoded(cs, z);
    assert e[0] == (NextLine(cs, z) + EOL)[0];
    if lead && |s| >= 2 {
      assert Coming(lead, cs, z)[2..] == e;
      assert s[2..] <= e;
      assert s[0] == EOL[0] && s[1] == EOL[1];
    } else if !lead {
      assert Coming(lead, cs, z) == e;
    }
  }

  // ---------------------------------------------------------------- one turn

  /** `all'` is `all` without what was consumed: the future is the same. */
  predicate SameFuture(b: Body, all: seq<byte>, c: Body, all': seq<byte>) {
    b.pending <= all && c.pending <= all' && all[|b.pending|..] == all'[|c.pending|..]
  }

  /** What was consumed is gone from both. */
  lemma CutFront(all: seq<byte>, s: seq<byte>, n: nat)
    requires s <= all && n <= |s|
    ensures s[n..] <= all[n..] && all[n..][|s[n..]|..] == all[|s|..]
  {
  }

  /** What of a chunk's data lies unread, with `rest` behind it. */
  lemma Taken(data: seq<byte>, got: nat, rest: seq<byte>, s: seq<byte>, n: nat)
    requires got <= |data| && s <= data[got..] + rest && n <= |s| && n <= |data| - got
    ensures s[..n] == data[got..got + n] && (data[got..] + rest)[n..] == data[got + n..] + rest
  {
    assert (data[got..] + rest)[..n] == data[got..][..n];
  }

  lemma Gathered(body: seq<byte>, data: seq<byte>, got: nat, n: nat, rest: seq<byte>)
    requires got + n <= |data|
    ensures body + data[got..] + rest == body + data[got..got + n] + data[got + n..] + rest
  {
    assert data[got..] == data[got..got + n] + data[got + n..];
  }

  /** Part of a chunk's data is taken. */
  lemma SomeTaken(b: Body, cs: ChunkList, z: seq<byte>, all: seq<byte>, n: nat, c: Body)
    requires b.Valid() && b.size.Known? && Placed(b, false, cs, z, all) && n <= |b.pending| && n < b.size.n - b.got
    requires c == b.(pending := b.pending[n..], got := b.got + n, body := b.body + b.pending[..n])
    ensures Placed(c, false, cs, z, all[n..]) && Whole(c, cs) == Whole(b, cs)
  {
    var rest := EOL + Encoded(cs.tail, z);
    StaysPlaced(b.pending, cs.head.data, b.got, EOL, Encoded(cs.tail, z), all, n);
    assert all == cs.head.data[b.got..] + rest;
    Taken(cs.head.data, b.got, rest, b.pending, n);
    Gathered(b.body, cs.head.data, b.got, n, Datas(cs.tail));
  }

  lemma StaysPlaced(s: seq<byte>, data: seq<byte>, got: nat, eol: seq<byte>, rest: seq<byte>, all: seq<byte>, n: nat)
    requires s <= all && n <= |s| && got + n <= |data| && all == data[got..] + eol + rest
    ensures s[n..] <= all[n..] && all[n..] == data[got + n..] + eol + rest
  {
    CutFront(all, s, n);
    assert all == data[got..] + (eol + rest);
    Taken(data, got, eol + rest, s, n);
    assert data[got + n..] + (eol + rest) == data[got + n..] + eol + rest;
  }

  /** All that was missing of a chunk's data is taken. */
  lemma AllTaken(b: Body, cs: ChunkList, z: seq<byte>, all: seq<byte>, n: nat, c: Body)
    requires b.Valid() && b.size.Known? && Placed(b, false, cs, z, all) && n <= |b.pending| && n == b.size.n - b.got
    requires c == b.(pending := b.pending[n..], size := Unknown, got := b.got + n, body := b.body + b.pending[..n])
    ensures Placed(c, true, cs.tail, z, all[n..]) && Whole(c, cs.tail) == Whole(b, cs)
  {
    var data, rest := cs.head.data, EOL + Encoded(cs.tail, z);
    assert all == data[b.got..] + rest;
    CutFront(all, b.pending, n);
    Taken(data, b.got, rest, b.pending, n);
    assert data[b.got + n..] + rest == rest;
  }

  lemma DataTurnGood(b: Body, cs: ChunkList, z: seq<byte>, all: seq<byte>)
    returns (lead: bool, cs': ChunkList, all': seq<byte>)
    requires b.Valid() && b.size.Known? && Placed(b, false, cs, z, all)
    ensures var t := DataTurn(b);
            !t.Done? && Placed(t.b, lead, cs', z, all') && SameFuture(b, all, t.b, all')
              && Whole(t.b, cs') == Whole(b, cs)
            && (t.Wait? ==> Starved(t.b, lead, cs', z)) && (cs' == cs || (cs.More? && cs' == cs.tail))
  {
    var left := b.size.n - b.got;
    var n := if left < |b.pending| then left else |b.pending|;
    all' := all[n..];
    CutFront(all, b.pending, n);
    var c := DataTurn(b).b;
    if n == left {
      lead, cs' := true, cs.tail;
      AllTaken(b, cs, z, all, n, c);
    } else {
      lead, cs' := false, cs;
      SomeTaken(b, cs, z, all, n, c);
    }
  }

  /** Where the turn that reads a size line stands once the ends of line in front are gone. */
  lemma AfterSkip(b: Body, lead: bool, cs: ChunkList, z: seq<byte>, all: seq<byte>)
    returns (lead': bool, all': seq<byte>)
    requires b.size.Unknown? && Placed(b, lead, cs, z, all) && NextLine(cs, z) != [] && NextLine(cs, z)[0] != CR
    ensures var c := b.(pending := Skipped(b.pending));
            Placed(c, lead', cs, z, all') && SameFuture(b, all, c, all') && (lead' ==> |c.pending| < 2)
  {
    SkipsLead(b.pending, lead, cs, z);
    if lead && |b.pending| >= 2 {
      lead', all' := false, all[2..];
      assert all[2..] == Encoded(cs, z);
    } else {
      lead', all' := lead, all;
    }
  }

  /** The next size line is seen exactly when it is there with its end of line. */
  lemma LineSeen(s: seq<byte>, lead: bool, cs: ChunkList, z: seq<byte>)
    requires s <= Coming(lead, cs, z) && (lead ==> |s| < 2)
    requires var l := NextLine(cs, z); NoNul(l) && forall j :: 0 <= j < |l| ==> l[j] != CR
    ensures if !lead && |s| >= |NextLine(cs, z)| + 2 then Line(s, 0) == |NextLine(cs, z)| && NextLine(cs, z) + EOL <= s
            else Line(s, 0) == |s|
  {
    EncodedStarts(cs, z);
    var l := NextLine(cs, z);
    if lead {
      assert s == [] || s == [CR] by {
        assert s == Coming(lead, cs, z)[..|s|];
      }
      assert Line(s, |s|) == |s|;
    } else {
      assert Coming(lead, cs, z) == Encoded(cs, z);
      if |s| >= |l| + 2 {
        LineFound(s, l, 0);
      } else {
        LineMissing(s, l, 0);
      }
    }
  }

  /** What a size line reads as. */
  function NextSize(cs: ChunkList): nat {
    if cs == NoMore then 0 else |cs.head.data|
  }

  /** Behind a size line, the data of its chunk comes. */
  lemma ChunkBegins(c: Body, cs: ChunkList, z: seq<byte>, all: seq<byte>, d: Body) returns (all': seq<byte>)
    requires c.size.Unknown? && Placed(c, false, cs, z, all) && cs.More? && cs.head.data != []
             && |c.pending| >= |cs.head.line| + 2
    requires d == c.(pending := c.pending[|cs.head.line| + 2..], size := Known(|cs.head.data|), got := 0)
    ensures Placed(d, false, cs, z, all') && SameFuture(c, all, d, all')
  {
    var n := |cs.head.line| + 2;
    EncodedStarts(cs, z);
    assert [] + Encoded(cs, z) == Encoded(cs, z);
    all' := all[n..];
    CutFront(all, c.pending, n);
    assert cs.head.data[0..] == cs.head.data;
  }

  lemma WholeBegins(c: Body, cs: ChunkList, d: Body)
    requires c.size.Unknown? && cs.More? && d.size.Known? && d.got == 0 && d.body == c.body
    ensures Whole(d, cs) == Whole(c, cs)
  {
    assert cs.head.data[0..] == cs.head.data;
    assert c.body + cs.head.data + Datas(cs.tail) == c.body + (cs.head.data + Datas(cs.tail));
  }

  predicate SeesLine(c: Body, lead: bool, l: seq<byte>) {
    !lead && |c.pending| >= |l| + 2
  }

  /** Past a size line. */
  function Past(c: Body, l: seq<byte>, n: nat): Body
    requires |c.pending| >= |l| + 2
  {
    c.(pending := c.pending[|l| + 2..], size := Known(n), got := 0)
  }

  lemma LineTurnIs(hex: seq<byte> -> int, c: Body, lead: bool, cs: ChunkList, z: seq<byte>, l: seq<byte>, n: nat)
    requires c.pending <= Coming(lead, cs, z) && (lead ==> |c.pending| < 2)
    requires l == NextLine(cs, z) && SizeLine(hex, l, n)
    ensures var t := LineTurn(hex, c);
            if !SeesLine(c, lead, l) then t == Wait(c)
            else if n == 0 then t.Done? && t.b.ended && t.b.body == c.body
            else t == On(Past(c, l, n))
  {
    LineSeen(c.pending, lead, cs, z);
  }

  lemma LineTurnGood(hex: seq<byte> -> int, c: Body, lead: bool, cs: ChunkList, z: seq<byte>, all: seq<byte>)
    returns (all': seq<byte>)
    requires c.size.Unknown? && Placed(c, lead, cs, z, all) && SizeLine(hex, NextLine(cs, z), NextSize(cs))
             && WellFormed(hex, cs)
    requires lead ==> |c.pending| < 2
    ensures var t := LineTurn(hex, c);
            if t.Done? then cs == NoMore && t.b.ended && t.b.body == Whole(c, cs) && |all| - |c.pending| <= 2
            else Placed(t.b, lead, cs, z, all') && SameFuture(c, all, t.b, all') && Whole(t.b, cs) == Whole(c, cs)
                 && (t.Wait? ==> Starved(t.b, lead, cs, z)) && (t.On? ==> t.b.size.Known? && t.b.Valid())
  {
    all' := all;
    var l := NextLine(cs, z);
    LineTurnIs(hex, c, lead, cs, z, l, NextSize(cs));
    if SeesLine(c, lead, l) && cs.More? {
      var d := Past(c, l, |cs.head.data|);
      WholeBegins(c, cs, d);
      all' := ChunkBegins(c, cs, z, all, d);
    }
  }

  lemma SizeTurnGood(hex: seq<byte> -> int, b: Body, lead: bool, cs: ChunkList, z: seq<byte>, all: seq<byte>)
    returns (lead': bool, all': seq<byte>)
    requires b.size.Unknown? && Placed(b, lead, cs, z, all) && SizeLine(hex, NextLine(cs, z), NextSize(cs))
             && WellFormed(hex, cs)
    ensures var t := SizeTurn(hex, b);
            if t.Done? then cs == NoMore && t.b.ended && t.b.body == Whole(b, cs) && |all| - |b.pending| <= 2
            else Placed(t.b, lead', cs, z, all') && SameFuture(b, all, t.b, all') && Whole(t.b, cs) == Whole(b, cs)
                 && (t.Wait? ==> Starved(t.b, lead', cs, z)) && (t.On? ==> t.b.size.Known? && t.b.Valid())
  {
    var all0: seq<byte>;
    lead', all0 := AfterSkip(b, lead, cs, z, all);
    all' := LineTurnGood(hex, b.(pending := Skipped(b.pending)), lead', cs, z, all0);
  }

  lemma TurnGood(hex: seq<byte> -> int, b: Body, lead: bool, cs: ChunkList, z: seq<byte>, all: seq<byte>)
    returns (lead': bool, cs': ChunkList, all': seq<byte>)
    requires b.Valid() && Placed(b, lead, cs, z, all) && SizeLine(hex, z, 0) && WellFormed(hex, cs)
    ensures var t := Turn(hex, b);
            if t.Done? then t.b.ended && t.b.body == Whole(b, cs) && |all| - |b.pending| <= 2
            else Placed(t.b, lead', cs', z, all') && SameFuture(b, all, t.b, all') && Whole(t.b, cs') == Whole(b, cs)
                 && (t.Wait? ==> Starved(t.b, lead', cs', z)) && WellFormed(hex, cs')
  {
    if b.size.Known? {
      lead', cs', all' := DataTurnGood(b, cs, z, all);
    } else {
      cs' := cs;
      lead', all' := SizeTurnGood(hex, b, lead, cs, z, all);
      var t := SizeTurn(hex, b);
      if t.On? {
        lead', cs', all' := DataTurnGood(t.b, cs, z, all');
      }
    }
  }

  /** The loop: the body ends with every chunk in it, or it is at the right place and has too little to go on. */
  lemma {:induction false} AcquireGood(hex: seq<byte> -> int, b: Body, lead: bool, cs: ChunkList, z: seq<byte>,
                                       all: seq<byte>)
    returns (lead': bool, cs': ChunkList, all': seq<byte>)
    requires b.Valid() && Placed(b, lead, cs, z, all) && SizeLine(hex, z, 0) && WellFormed(hex, cs)
    ensures var c := Acquire(hex, b);
            if c.ended then c.body == Whole(b, cs) && |all| - |b.pending| <= 2
            else c.Valid() && Placed(c, lead', cs', z, all') && SameFuture(b, all, c, all')
                 && Whole(c, cs') == Whole(b, cs)
                 && Starved(c, lead', cs', z) && WellFormed(hex, cs')
    decreases |b.pending|
  {
    TurnConsumes(hex, b);
    lead', cs', all' := TurnGood(hex, b, lead, cs, z, all);
    var t := Turn(hex, b);
    if t.On? {
      lead', cs', all' := AcquireGood(hex, t.b, lead', cs', z, all');
    }
  }

  // ---------------------------------------------------------------- any segmentation

  /** A read of `d`; once the body ended, what comes is no longer its business. */
  function Receive(hex: seq<byte> -> int, b: Body, d: seq<byte>): Body
    requires b.Valid()
  {
    if b.ended || b.broken then b else Acquire(hex, b.(pending := b.pending + d))
  }

  function Reads(hex: seq<byte> -> int, b: Body, pieces: seq<seq<byte>>): Body
    requires b.Valid()
    decreases |pieces|
  {
    if pieces == [] then b
    else
      AcquireValid(hex, b.(pending := b.pending + pieces[0]));
      Reads(hex, Receive(hex, b, pieces[0]), pieces[1..])
  }

  lemma {:induction false} AcquireValid(hex: seq<byte> -> int, b: Body)
    requires b.Valid()
    ensures Acquire(hex, b).Valid()
    decreases |b.pending|
  {
    TurnConsumes(hex, b);
    if Turn(hex, b).On? {
      AcquireValid(hex, Turn(hex, b).b);
    }
  }

  const START := Body([], Unknown, 0, [], false, false)

  lemma {:induction false} EndedStays(hex: seq<byte> -> int, b: Body, pieces: seq<seq<byte>>)
    requires b.Valid() && b.ended
    ensures Reads(hex, b, pieces) == b
    decreases |pieces|
  {
    if pieces != [] {
      EndedStays(hex, b, pieces[1..]);
    }
  }

  /** A body that waits has more to come than the last end of line. */
  lemma StarvedIsShort(b: Body, lead: bool, cs: ChunkList, z: seq<byte>, all: seq<byte>)
    requires b.Valid() && Placed(b, lead, cs, z, all) && Starved(b, lead, cs, z)
    ensures |all| - |b.pending| > 2
  {
    EncodedStarts(cs, z);
    if cs.More? {
      EncodedStarts(cs.tail, z);
    }
  }

  lemma MorePlaced(b: Body, lead: bool, cs: ChunkList, z: seq<byte>, all: seq<byte>, d: seq<byte>)
    requires Placed(b, lead, cs, z, all) && b.pending + d <= all
    ensures Placed(b.(pending := b.pending + d), lead, cs, z, all)
  {
  }

  lemma {:induction false} SegmentationFrom(hex: seq<byte> -> int, b: Body, lead: bool, cs: ChunkList, z: seq<byte>,
                                            all: seq<byte>, pieces: seq<seq<byte>>)
    requires b.Valid() && Placed(b, lead, cs, z, all) && SizeLine(hex, z, 0) && WellFormed(hex, cs)
             && Starved(b, lead, cs, z)
    requires b.pending + Joined(pieces) <= all
    ensures var c := Reads(hex, b, pieces);
            (c.ended <==> |all| - |b.pending + Joined(pieces)| <= 2) && (c.ended ==> c.body == Whole(b, cs))
    decreases |pieces|
  {
    if pieces == [] {
      StarvedIsShort(b, lead, cs, z, all);
    } else {
      var d, w := pieces[0], Joined(pieces[1..]);
      var b' := b.(pending := b.pending + d);
      assert b.pending + Joined(pieces) == b'.pending + w;
      assert b'.pending <= b'.pending + w;
      MorePlaced(b, lead, cs, z, all, d);
      AcquireValid(hex, b');
      var lead', cs', all' := AcquireGood(hex, b', lead, cs, z, all);
      var c := Acquire(hex, b');
      if c.ended {
        EndedStays(hex, c, pieces[1..]);
      } else {
        Onward(b', all, c, all', w);
        SegmentationFrom(hex, c, lead', cs', z, all', pieces[1..]);
      }
    }
  }

  lemma Onward(b: Body, all: seq<byte>, c: Body, all': seq<byte>, w: seq<byte>)
    requires SameFuture(b, all, c, all') && b.pending + w <= all
    ensures c.pending + w <= all' && |all| - |b.pending + w| == |all'| - |c.pending + w|
  {
    assert all[|b.pending|..][..|w|] == w;
    assert all'[..|c.pending| + |w|] == c.pending + w;
  }

  /**
   However a chunked body is cut into reads, it ends exactly when all of it came but perhaps the last end of line, and
   is then the data of its chunks, in order.
   */
  lemma {:induction false} Segmentation(hex: seq<byte> -> int, cs: ChunkList, z: seq<byte>, pieces: seq<seq<byte>>)
    requires SizeLine(hex, z, 0) && WellFormed(hex, cs) && Joined(pieces) <= Encoded(cs, z)
    ensures var b := Reads(hex, START, pieces);
            (b.ended <==> |Joined(pieces)| >= |Encoded(cs, z)| - 2) && (b.ended ==> b.body == Datas(cs))
  {
    assert [] + Joined(pieces) == Joined(pieces);
    assert Coming(false, cs, z) == Encoded(cs, z);
    SegmentationFrom(hex, START, false, cs, z, Encoded(cs, z), pieces);
  }

  // ---------------------------------------------------------------- header and body

  /** A message with a chunked body, while its header is being received and while its body is. */
  datatype Incoming = Heading(p: Framing.Parser) | InBody(header: seq<byte>, b: Body)

  /** The search for the empty line, for a header that announces chunks: its body begins behind it. */
  function HeadStep(o: Framing.Oracle, hex: seq<byte> -> int, p: Framing.Parser): Incoming {
    var e := Framing.HeaderEnd(p.pending, 0);
    if e == |p.pending| then Heading(p)
    else
      var h := p.pending[..e + 4];
      var used := o.parse(h).used;
      if 0 < used <= |p.pending| then InBody(h, Acquire(hex, START.(pending := p.pending[used..])))
      else Heading(p.(state := Framing.Waiting, off := p.off + |h|, pending := p.pending[|h|..]))
  }

  /** A read of `d`, into the header or into the body. */
  function Take(o: Framing.Oracle, hex: seq<byte> -> int, r: Incoming, d: seq<byte>): Incoming
    requires r.InBody? ==> r.b.Valid()
  {
    match r
    case InBody(h, b) => InBody(h, Receive(hex, b, d))
    case Heading(p) =>
      var q := p.(pending := p.pending + d);
      if q.pending == [] then Heading(q)
      else if q.state != Framing.Waiting then HeadStep(o, hex, q)
      else
        match Framing.StartStep(o, q)
        case Ended(out) => Heading(out.p)
        case On(a) => HeadStep(o, hex, a)
  }

  lemma TakeValid(o: Framing.Oracle, hex: seq<byte> -> int, r: Incoming, d: seq<byte>)
    requires r.InBody? ==> r.b.Valid()
    ensures Take(o, hex, r, d).InBody? ==> Take(o, hex, r, d).b.Valid()
  {
    if r.InBody? {
      AcquireValid(hex, r.b.(pending := r.b.pending + d));
    } else {
      forall x: seq<byte> ensures Acquire(hex, START.(pending := x)).Valid() {
        AcquireValid(hex, START.(pending := x));
      }
    }
  }

  function TakeAll(o: Framing.Oracle, hex: seq<byte> -> int, r: Incoming, pieces: seq<seq<byte>>): Incoming
    requires r.InBody? ==> r.b.Valid()
    decreases |pieces|
  {
    if pieces == [] then r
    else
      TakeValid(o, hex, r, pieces[0]);
      TakeAll(o, hex, Take(o, hex, r, pieces[0]), pieces[1..])
  }

  /** A header that fits the buffer, ends with its first empty line and parses. */
  ghost predicate Opens(o: Framing.Oracle, h: seq<byte>) {
    4 <= |h| <= 65533 && NoNul(h) && Framing.Blank(h, |h| - 4)
    && (forall i :: 0 <= i < |h| - 4 ==> !Framing.Blank(h, i))
    && (forall x: seq<byte> {:trigger o.start(x)} :: Framing.StartsLike(h, x) ==> o.start(x) == 0)
    && o.parse(h).used == |h|
  }

  /** Part of the header `h` was received, and nothing more can be made of it. */
  ghost predicate InHeader(p: Framing.Parser, h: seq<byte>) {
    p.off == 0 && |p.pending| < |h| && p.pending == h[..|p.pending|] && p.state != Framing.Body
    && (p.state == Framing.Waiting ==> |p.pending| < Framing.LineEnd(h, 0) + 2)
    && (p.state == Framing.Acquiring ==> |p.pending| >= Framing.LineEnd(h, 0) + 2)
  }

  lemma FirstLine(o: Framing.Oracle, h: seq<byte>)
    requires Opens(o, h)
    ensures Framing.LineEnd(h, 0) + 2 <= |h|
  {
    assert CrLf(h, |h| - 4);
  }

  /** The empty line is found once it came. */
  lemma HeadFound(o: Framing.Oracle, hex: seq<byte> -> int, p: Framing.Parser, h: seq<byte>)
    requires Opens(o, h) && h <= p.pending
    ensures HeadStep(o, hex, p) == InBody(h, Receive(hex, START, p.pending[|h|..]))
  {
    assert p.pending[..|h|] == h;
    Framing.HeaderEndFound(p.pending, h, 0);
    assert [] + p.pending[|h|..] == p.pending[|h|..];
  }

  lemma HeadStepGood(o: Framing.Oracle, hex: seq<byte> -> int, p: Framing.Parser, h: seq<byte>)
    requires Opens(o, h) && p.off == 0 && p.state == Framing.Acquiring && Framing.LineEnd(h, 0) + 2 <= |p.pending|
    requires p.pending <= h || h <= p.pending
    ensures if |p.pending| < |h| then HeadStep(o, hex, p) == Heading(p) && InHeader(p, h)
            else HeadStep(o, hex, p) == InBody(h, Receive(hex, START, p.pending[|h|..]))
  {
    if |p.pending| < |h| {
      assert p.pending == h[..|p.pending|];
      Framing.HeaderEndMissing(p.pending, h, 0);
    } else {
      HeadFound(o, hex, p, h);
    }
  }

  /** The first line is found once it came. */
  lemma StartStepGood(o: Framing.Oracle, p: Framing.Parser, h: seq<byte>)
    requires Opens(o, h) && p.off == 0 && p.state == Framing.Waiting && (p.pending <= h || h <= p.pending)
    ensures Framing.StartStep(o, p)
            == if |p.pending| < Framing.LineEnd(h, 0) + 2
              then Framing.Ended(Framing.Stop(p)) else Framing.On(p.(state := Framing.Acquiring))
  {
    FirstLine(o, h);
    var c := Framing.LineEnd(h, 0) + 2;
    if |p.pending| < c {
      assert p.pending == h[..|p.pending|];
      Framing.LineEndMissing(p.pending, h, 0);
    } else {
      assert p.pending[..c] == h[..c];
      Framing.LineEndSame(p.pending, h, 0);
      assert h[..c] <= p.pending;
      assert p.pending[0..] == p.pending;
    }
  }

  /** A read that goes into the header. */
  lemma TakeHeader(o: Framing.Oracle, hex: seq<byte> -> int, p: Framing.Parser, h: seq<byte>, d: seq<byte>,
                   v: seq<byte>)
    requires Opens(o, h) && InHeader(p, h) && v == p.pending + d && (v <= h || h <= v)
    ensures var r := Take(o, hex, Heading(p), d);
            if |v| < |h| then r.Heading? && r.p.pending == v && InHeader(r.p, h)
            else r == InBody(h, Receive(hex, START, v[|h|..]))
  {
    FirstLine(o, h);
    var q := p.(pending := v);
    if v != [] {
      if q.state == Framing.Waiting {
        StartStepGood(o, q, h);
        if |v| >= Framing.LineEnd(h, 0) + 2 {
          HeadStepGood(o, hex, q.(state := Framing.Acquiring), h);
        }
      } else {
        HeadStepGood(o, hex, q, h);
      }
    }
  }

  lemma {:induction false} TakeBody(o: Framing.Oracle, hex: seq<byte> -> int, h: seq<byte>, b: Body,
                                    pieces: seq<seq<byte>>)
    requires b.Valid()
    ensures TakeAll(o, hex, InBody(h, b), pieces) == InBody(h, Reads(hex, b, pieces))
    decreases |pieces|
  {
    if pieces != [] {
      AcquireValid(hex, b.(pending := b.pending + pieces[0]));
      TakeBody(o, hex, h, Receive(hex, b, pieces[0]), pieces[1..]);
    }
  }

  /** What must have become of the header `h` and the body once `n` octets of them came. */
  predicate Came(r: Incoming, h: seq<byte>, cs: ChunkList, z: seq<byte>, n: nat) {
    if n < |h| then r.Heading?
    else r.InBody? && r.header == h && (r.b.ended <==> n >= |h| + |Encoded(cs, z)| - 2)
         && (r.b.ended ==> r.b.body == Datas(cs))
  }

  lemma BodyComes(o: Framing.Oracle, hex: seq<byte> -> int, h: seq<byte>, cs: ChunkList, z: seq<byte>, x: seq<byte>,
                  pieces: seq<seq<byte>>)
    requires SizeLine(hex, z, 0) && WellFormed(hex, cs) && x + Joined(pieces) <= Encoded(cs, z)
    ensures Receive(hex, START, x).Valid()
    ensures Came(TakeAll(o, hex, InBody(h, Receive(hex, START, x)), pieces), h, cs, z, |h| + |x + Joined(pieces)|)
  {
    AcquireValid(hex, START.(pending := START.pending + x));
    TakeBody(o, hex, h, Receive(hex, START, x), pieces);
    var all := [x] + pieces;
    assert all[0] == x && all[1..] == pieces;
    Segmentation(hex, cs, z, all);
  }

  lemma Cut(h: seq<byte>, t: seq<byte>, v: seq<byte>, w: seq<byte>)
    requires v + w <= h + t
    ensures v <= h || h <= v
    ensures |v| >= |h| ==> v[|h|..] + w <= t
  {
    var all := h + t;
    assert v + w == all[..|v + w|];
    assert all[..|h|] == h && all[|h|..] == t;
    if |v| >= |h| {
      assert v == (v + w)[..|v|];
      assert v[|h|..] + w == (v + w)[|h|..];
      assert (v + w)[|h|..] == all[|h|..|v + w|];
      assert v[..|h|] == all[..|h|];
    } else {
      assert v == (v + w)[..|v|] == all[..|v|] == h[..|v|];
    }
  }

  lemma {:induction false} MessageFrom(o: Framing.Oracle, hex: seq<byte> -> int, p: Framing.Parser, h: seq<byte>,
                                       cs: ChunkList, z: seq<byte>,
                                       pieces: seq<seq<byte>>)
    requires Opens(o, h) && InHeader(p, h) && SizeLine(hex, z, 0) && WellFormed(hex, cs)
    requires p.pending + Joined(pieces) <= h + Encoded(cs, z)
    ensures Came(TakeAll(o, hex, Heading(p), pieces), h, cs, z, |p.pending + Joined(pieces)|)
    decreases |pieces|
  {
    if pieces != [] {
      var v, w := p.pending + pieces[0], Joined(pieces[1..]);
      assert p.pending + Joined(pieces) == v + w;
      Cut(h, Encoded(cs, z), v, w);
      TakeHeader(o, hex, p, h, pieces[0], v);
      TakeValid(o, hex, Heading(p), pieces[0]);
      if |v| < |h| {
        MessageFrom(o, hex, Take(o, hex, Heading(p), pieces[0]).p, h, cs, z, pieces[1..]);
      } else {
        BodyComes(o, hex, h, cs, z, v[|h|..], pieces[1..]);
      }
    }
  }

  /**
   However header and chunked body are cut into reads: the header is recognised as soon as all of it came, and the
   message is complete, with that header and the data of its chunks, as soon as all came but perhaps the last end of
   line.
   */
  lemma {:induction false} WholeMessage(o: Framing.Oracle, hex: seq<byte> -> int, h: seq<byte>, cs: ChunkList,
                                        z: seq<byte>, pieces: seq<seq<byte>>)
    requires Opens(o, h) && SizeLine(hex, z, 0) && WellFormed(hex, cs) && Joined(pieces) <= h + Encoded(cs, z)
    ensures Came(TakeAll(o, hex, Heading(Framing.START), pieces), h, cs, z, |Joined(pieces)|)
  {
    FirstLine(o, h);
    assert [] + Joined(pieces) == Joined(pieces);
    MessageFrom(o, hex, Framing.START, h, cs, z, pieces);
  }

  // ---------------------------------------------------------------- the code

  /** The chunk fields of an input stream, beside the others. */
  class ChunkedStream {
    const hex: seq<byte> -> int
    const st: Framing.InputStream
    var chunkSize: int
    var chunkRead: nat
    var ended: bool
    var broken: bool

    ghost predicate Sound()
      reads this, st
    {
      st.buff.Length == Framing.BUFFER && st.read <= st.write < Framing.BUFFER && chunkSize >= -1
    }

    ghost predicate Valid()
      reads this, st
    {
      Sound() && (chunkSize != -1 ==> chunkRead < chunkSize)
    }

    ghost function View(): Body
      reads this, st, st.buff
      requires Sound()
    {
      Body(st.buff[st.read..st.write], if chunkSize == -1
           then Unknown else Known(chunkSize), chunkRead, st.body, ended, broken)
    }

    /** What `check_body` sets up. */
    constructor (hex: seq<byte> -> int, st: Framing.InputStream)
      requires st.buff.Length == Framing.BUFFER && st.read == st.write < Framing.BUFFER && st.body == []
      ensures Valid() && View() == START && this.hex == hex && this.st == st
    {
      this.hex, this.st := hex, st;
      chunkSize, chunkRead, ended, broken := -1, 0, false, false;
    }

    /** The ends of line in front are skipped. */
    method SkipEols()
      requires Sound()
      modifies st`read
      ensures Sound() && View() == old(View().(pending := Skipped(View().pending)))
    {
      ghost var all := st.buff[st.read..st.write];
      while st.write - st.read >= 2 && st.buff[st.read] == CR && st.buff[st.read + 1] == LF
        invariant Sound() && Skipped(st.buff[st.read..st.write]) == Skipped(all)
        decreases st.write - st.read
      {
        assert st.buff[st.read..st.write][2..] == st.buff[st.read + 2..st.write];
        st.read := st.read + 2;
      }
    }

    /** `read_ptr += n`. */
    method Consume(n: nat)
      requires Sound() && st.read + n <= st.write
      modifies st`read
      ensures Sound() && View() == old(View().(pending := View().pending[n..]))
    {
      assert st.buff[st.read + n..st.write] == st.buff[st.read..st.write][n..];
      st.read := st.read + n;
    }

    /** What the size line says: 0 to go on with its chunk, 1 for more data, 2 when the message is done or given up. */
    method ReadLine() returns (r: nat)
      requires Valid() && chunkSize == -1
      modifies this, st`read
      ensures Valid() && LineTurn(hex, old(View()))
              == if r == 0 then On(View()) else if r == 1 then Wait(View()) else Done(View())
    {
      var s := st.buff[st.read..st.write];
      var tmp := Line(s, 0);
      if tmp == |s| {
        return 1;
      }
      var size := hex(s);
      if size < 0 {
        broken := true;
        return 2;
      }
      if size == 0 {
        Consume(if tmp + 4 <= |s| then tmp + 4 else |s|);
        ended := true;
        return 2;
      }
      Consume(tmp + 2);
      chunkSize, chunkRead := size, 0;
      r := 0;
    }

    method ReadSize() returns (r: nat)
      requires Valid() && chunkSize == -1
      modifies this, st`read
      ensures Valid() && SizeTurn(hex, old(View()))
              == if r == 0 then On(View()) else if r == 1 then Wait(View()) else Done(View())
    {
      SkipEols();
      r := ReadLine();
    }

    /** The data of the chunk; false is BELLE_SIP_STOP. */
    method ReadData() returns (again: bool)
      requires Valid() && chunkSize != -1
      modifies this, st`read, st`write, st`body, st.buff
      ensures Valid() && DataTurn(old(View())) == if again then On(View()) else Wait(View())
    {
      ghost var b := View();
      var left: nat := chunkSize - chunkRead;
      var readSize := if st.write - st.read < left then st.write - st.read else left;
      if readSize > 0 {
        ghost var p := st.View();
        st.FeedBody(readSize);
        assert st.View().pending == p.pending[readSize..];
        chunkRead := chunkRead + readSize;
      }
      if chunkSize != chunkRead {
        return false;
      }
      chunkSize := -1;
      again := st.write - st.read > 0;
    }

    /** One turn of the loop: 0 to go on, 1 for more data, 2 when the message is done or given up. */
    method OneTurn() returns (r: nat)
      requires Valid()
      modifies this, st`read, st`write, st`body, st.buff
      ensures Valid() && Turn(hex, old(View()))
              == if r == 0 then On(View()) else if r == 1 then Wait(View()) else Done(View())
    {
      if chunkSize == -1 {
        r := ReadSize();
        if r != 0 {
          return;
        }
      }
      var more := ReadData();
      r := if more then 0 else 1;
    }

    /** `acquire_chuncked_body`. */
    method AcquireChunkedBody()
      requires Valid()
      modifies this, st`read, st`write, st`body, st.buff
      ensures Valid() && View() == Acquire(hex, old(View()))
    {
      ghost var end := Acquire(hex, View());
      var r := 0;
      while r == 0
        invariant Valid() && if r == 0 then Acquire(hex, View()) == end else View() == end
        decreases if r == 0 then st.write - st.read + 1 else 0
      {
        TurnConsumes(hex, View());
        r := OneTurn();
      }
    }

    method ReceiveData(data: seq<byte>)
      requires Valid() && st.write + |data| < Framing.BUFFER
      modifies this, st`read, st`write, st`body, st.buff
      ensures Valid() && (!old(ended || broken) ==> View() == Receive(hex, old(View()), data))
    {
      if !ended && !broken {
        ghost var b := View();
        st.Fill(data);
        assert st.View().pending == b.pending + data && st.View().body == b.body;
        AcquireChunkedBody();
      }
    }
  }
}
