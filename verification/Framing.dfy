/**
 Cutting a byte stream into messages (the input side of `channel.c`).  The parser keeps what it cannot use
 yet in a fixed buffer; what a message looks like inside its header is left to two functions: where a message starts
 and what its header says.
 */
module Framing {
  import opened Bytes

  /** belle_sip_network_buffer_size. */
  const BUFFER: nat := 65535

  /** A message that was received: its header, and its body. */
  datatype Message = Message(header: seq<byte>, body: seq<byte>)

  datatype List = Nil | Cons(head: Message, tail: List)

  /** `WAITING_MESSAGE_START`, `MESSAGE_AQUISITION` and `BODY_AQUISITION`. */
  datatype State = Waiting | Acquiring | Body

  /** What the header parser makes of a header: the octets it used, 0 if it failed, and the content length. */
  datatype Parsed = Parsed(used: nat, contentLength: nat)

  /** `get_message_start_pos` and `belle_sip_message_parse_raw`, as functions of what they are given. */
  datatype Oracle = Oracle(start: seq<byte> -> int, parse: seq<byte> -> Parsed)

  predicate Blank(s: seq<byte>, i: nat) {
    CrLf(s, i) && CrLf(s, i + 2)
  }

  /** The first end of line from `i` on, or the length. */
  function LineEnd(s: seq<byte>, i: nat): (r: nat)
    requires i <= |s|
    ensures i <= r <= |s| && (r < |s| ==> CrLf(s, r)) && forall j :: i <= j < r ==> !CrLf(s, j)
    decreases |s| - i
  {
    if i == |s| || CrLf(s, i) then i else LineEnd(s, i + 1)
  }

  /** `strstr` of an empty line: the first one from `i` on before any NUL, or the length. */
  function HeaderEnd(s: seq<byte>, i: nat): (r: nat)
    requires i <= |s|
    ensures i <= r <= |s| && (r < |s| ==> Blank(s, r))
    ensures forall j :: i <= j < r ==> !Blank(s, j) || exists k :: i <= k <= j && s[k] == 0
    decreases |s| - i
  {
    if i == |s| then i else if s[i] == 0 then |s| else if Blank(s, i) then i else HeaderEnd(s, i + 1)
  }

  // ---------------------------------------------------------------- well-formed messages

  /** A header that ends with its first empty line, fits the buffer, and gives the body's length. */
  ghost predicate WellFormed(o: Oracle, m: Message) {
    4 <= |m.header| <= 65533
    && NoNul(m.header)
    && Blank(m.header, |m.header| - 4)
    && (forall i :: 0 <= i < |m.header| - 4 ==> !Blank(m.header, i))
    && (forall x: seq<byte> {:trigger o.start(x)} :: StartsLike(m.header, x) ==> o.start(x) == 0)
    && o.parse(m.header) == Parsed(|m.header|, |m.body|)
  }

  /** `x` begins with the first line of `h`. */
  predicate StartsLike(h: seq<byte>, x: seq<byte>) {
    var c := LineEnd(h, 0) + 2;
    c <= |h| && h[..c] <= x
  }

  ghost predicate AllWellFormed(o: Oracle, ms: List) {
    ms.Cons? ==> WellFormed(o, ms.head) && AllWellFormed(o, ms.tail)
  }

  function Size(m: Message): nat {
    |m.header| + |m.body|
  }

  function Stream(ms: List): seq<byte> {
    if ms == Nil then [] else ms.head.header + ms.head.body + Stream(ms.tail)
  }

  function Append(a: List, m: Message): List {
    if a == Nil then Cons(m, Nil) else Cons(a.head, Append(a.tail, m))
  }

  // ---------------------------------------------------------------- the parser, as a function

  /**
   The parser between two reads or inside one: `pending` is what lies in the buffer from `off` on;
   `header`, `need` and `body` belong to the message whose body is being received.
   */
  datatype Parser = Parser(state: State, off: nat, pending: seq<byte>, header: seq<byte>, need: nat, body: seq<byte>,
                           delivered: List) {
    predicate Valid() {
      state == Body ==> |body| < need
    }

    /** No more than the terminating NUL would fit. */
    predicate Full() {
      off + |pending| >= BUFFER - 1
    }
  }

  /** How a turn of the loop ends: break, or continue. */
  datatype Outcome = Stop(p: Parser) | Again(p: Parser)

  /** `belle_sip_channel_message_ready`. */
  function Ready(p: Parser): Parser {
    Parser(Waiting, 0, p.pending, [], 0, [], Append(p.delivered, Message(p.header, p.body)))
  }

  /** `acquire_body_simple`. */
  function BodyTurn(p: Parser): Outcome
    requires p.Valid() && p.state == Body
  {
    if p.pending == [] && p.body == [] then Stop(p)
    else
      var n := if p.need - |p.body| < |p.pending| then p.need - |p.body| else |p.pending|;
      var q := p.(off := 0, pending := p.pending[n..], body := p.body + p.pending[..n]);
      if |q.body| >= p.need then Again(Ready(q)) else Stop(q)
  }

  /** A part of a turn: it ends the turn, or the turn goes on in the next state. */
  datatype Step = Ended(out: Outcome) | On(p: Parser)

  /** The search for a message's first line. */
  function StartStep(o: Oracle, p: Parser): (r: Step)
    requires p.state == Waiting
    ensures r.On? ==> r.p.state == Acquiring && |r.p.pending| <= |p.pending|
  {
    if |p.pending| < 2 || !(p.Full() || LineEnd(p.pending, 0) < |p.pending|) then Ended(Stop(p))
    else
      var at := o.start(p.pending);
      if 0 <= at < |p.pending| then On(p.(state := Acquiring, off := p.off + at, pending := p.pending[at..]))
      else Ended(Again(Parser(Waiting, 0, [], [], 0, [], p.delivered)))
  }

  /** The search for the empty line, and what the header says. */
  function HeaderStep(o: Oracle, p: Parser): (r: Step)
    requires p.state == Acquiring
    ensures r.On? ==> r.p.state == Body && r.p.Valid() && |r.p.pending| < |p.pending|
  {
    var e := HeaderEnd(p.pending, 0);
    if e == |p.pending| then Ended(Stop(p))
    else
      var h := p.pending[..e + 4];
      var r := o.parse(h);
      if 0 < r.used <= |p.pending| then
        var q := p.(off := p.off + r.used, pending := p.pending[r.used..], header := h, body := []);
        if r.contentLength > 0 then On(q.(state := Body, need := r.contentLength)) else Ended(Again(Ready(q)))
      else Ended(Again(p.(state := Waiting, off := p.off + |h|, pending := p.pending[|h|..])))
  }

  function HeaderTurn(o: Oracle, p: Parser): Outcome
    requires p.state == Acquiring
  {
    match HeaderStep(o, p)
    case Ended(out) => out
    case On(q) => BodyTurn(q)
  }

  /** One turn of the loop of `belle_sip_channel_parse_stream`. */
  function Turn(o: Oracle, p: Parser): Outcome
    requires p.Valid()
  {
    match p.state
    case Waiting => (match StartStep(o, p) case Ended(out) => out case On(q) => HeaderTurn(o, q))
    case Acquiring => HeaderTurn(o, p)
    case Body => BodyTurn(p)
  }

  lemma BodyTurnConsumes(p: Parser)
    requires p.Valid() && p.state == Body
    ensures BodyTurn(p).p.Valid() && |BodyTurn(p).p.pending| <= |p.pending|
    ensures BodyTurn(p).Again? && p.pending != [] ==> |BodyTurn(p).p.pending| < |p.pending|
  {
  }

  lemma HeaderTurnConsumes(o: Oracle, p: Parser)
    requires p.state == Acquiring && p.pending != []
    ensures HeaderTurn(o, p).p.Valid()
    ensures HeaderTurn(o, p).Again? ==> |HeaderTurn(o, p).p.pending| < |p.pending|
  {
    var r := HeaderStep(o, p);
    if r.On? {
      BodyTurnConsumes(r.p);
    }
  }

  lemma TurnConsumes(o: Oracle, p: Parser)
    requires p.Valid() && p.pending != []
    ensures Turn(o, p).p.Valid()
    ensures Turn(o, p).Again? ==> |Turn(o, p).p.pending| < |p.pending|
  {
    match p.state {
      case Waiting =>
        var r := StartStep(o, p);
        if r.On? {
          HeaderTurnConsumes(o, r.p);
        }
      case Acquiring => HeaderTurnConsumes(o, p);
      case Body => BodyTurnConsumes(p);
    }
  }

  /** The whole loop. */
  function Drain(o: Oracle, p: Parser): Parser
    requires p.Valid()
    decreases |p.pending|
  {
    if p.pending == [] then p
    else
      TurnConsumes(o, p);
      var t := Turn(o, p);
      if t.Again? then Drain(o, t.p) else t.p
  }

  const START := Parser(Waiting, 0, [], [], 0, [], Nil)

  /** A read of `data`. */
  function Receive(o: Oracle, p: Parser, data: seq<byte>): Parser
    requires p.Valid()
  {
    Drain(o, p.(pending := p.pending + data))
  }

  // ---------------------------------------------------------------- finding lines and headers

  lemma {:induction false} HeaderEndFound(u: seq<byte>, h: seq<byte>, i: nat)
    requires 4 <= |h| <= |u| && u[..|h|] == h && NoNul(h) && Blank(h, |h| - 4) && i <= |h| - 4
    requires forall j :: 0 <= j < |h| - 4 ==> !Blank(h, j)
    ensures HeaderEnd(u, i) == |h| - 4
    decreases |h| - i
  {
    assert forall j :: 0 <= j < |h| ==> u[j] == u[..|h|][j];
    if i < |h| - 4 {
      assert Blank(u, i) <==> Blank(h, i);
      HeaderEndFound(u, h, i + 1);
    }
  }

  lemma {:induction false} HeaderEndMissing(u: seq<byte>, h: seq<byte>, i: nat)
    requires 4 <= |h| && |u| < |h| && u == h[..|u|] && NoNul(h) && i <= |u|
    requires forall j :: 0 <= j < |h| - 4 ==> !Blank(h, j)
    ensures HeaderEnd(u, i) == |u|
    decreases |u| - i
  {
    if i < |u| {
      assert Blank(u, i) ==> Blank(h, i);
      HeaderEndMissing(u, h, i + 1);
    }
  }

  lemma {:induction false} LineEndSame(u: seq<byte>, h: seq<byte>, i: nat)
    requires i <= LineEnd(h, 0) && LineEnd(h, 0) + 2 <= |u| && LineEnd(h, 0) + 2 <= |h|
    requires u[..LineEnd(h, 0) + 2] == h[..LineEnd(h, 0) + 2]
    ensures LineEnd(u, i) == LineEnd(h, 0)
    decreases LineEnd(h, 0) - i
  {
    var c := LineEnd(h, 0);
    assert forall j :: 0 <= j < c + 2 ==> u[j] == u[..c + 2][j] && h[j] == h[..c + 2][j];
    if i < c {
      assert !CrLf(h, i);
      LineEndSame(u, h, i + 1);
    }
  }

  lemma {:induction false} LineEndMissing(u: seq<byte>, h: seq<byte>, i: nat)
    requires i <= |u| <= |h| && |u| < LineEnd(h, 0) + 2 && u == h[..|u|]
    ensures LineEnd(u, i) == |u|
    decreases |u| - i
  {
    if i < |u| {
      assert CrLf(u, i) ==> CrLf(h, i);
      LineEndMissing(u, h, i + 1);
    }
  }

  /** A well-formed header has a first line. */
  lemma FirstLine(o: Oracle, m: Message)
    requires WellFormed(o, m)
    ensures LineEnd(m.header, 0) + 2 <= |m.header|
  {
    assert CrLf(m.header, |m.header| - 4);
  }

  // ---------------------------------------------------------------- what is no message

  /** A header that cannot be parsed is dropped, and what follows it is looked at next. */
  lemma {:induction false} BadHeaderDropped(o: Oracle, p: Parser, h: seq<byte>, rest: seq<byte>)
    requires p.state == Acquiring && p.pending == h + rest && 4 <= |h| && NoNul(h) && Blank(h, |h| - 4)
    requires forall i :: 0 <= i < |h| - 4 ==> !Blank(h, i)
    requires o.parse(h).used == 0 || o.parse(h).used > |h + rest|
    ensures Turn(o, p) == Again(p.(state := Waiting, off := p.off + |h|, pending := rest))
  {
    assert p.pending[..|h|] == h && p.pending[|h|..] == rest;
    HeaderEndFound(p.pending, h, 0);
    assert p.pending[..|h| - 4 + 4] == h;
  }

  /** Lines among which no message starts are dropped, all that is there. */
  lemma GarbageDropped(o: Oracle, p: Parser)
    requires p.state == Waiting && LineEnd(p.pending, 0) < |p.pending| && o.start(p.pending) < 0
    ensures Turn(o, p) == Again(START.(delivered := p.delivered))
  {
  }

  /** When nothing more fits in the buffer a turn does not wait for an end of line. */
  lemma {:induction false} FullIsTried(o: Oracle, p: Parser)
    requires p.state == Waiting && |p.pending| >= 2 && p.off + |p.pending| >= 65534
    ensures Turn(o, p) != Stop(p)
  {
    var r := StartStep(o, p);
    if r.On? {
      assert HeaderTurn(o, r.p).p.state != Waiting || HeaderTurn(o, r.p).Again?;
    }
  }

  /** A header without a body is a message at once. */
  lemma EmptyBodyDelivered(o: Oracle, p: Parser, h: seq<byte>, rest: seq<byte>)
    requires p.state == Acquiring && p.pending == h + rest && 4 <= |h| && NoNul(h) && Blank(h, |h| - 4)
    requires (forall i :: 0 <= i < |h| - 4 ==> !Blank(h, i)) && o.parse(h) == Parsed(|h|, 0)
    ensures Turn(o, p) == Again(START.(pending := rest, delivered := Append(p.delivered, Message(h, []))))
  {
    assert p.pending[..|h|] == h && p.pending[|h|..] == rest;
    HeaderEndFound(p.pending, h, 0);
    assert p.pending[..|h| - 4 + 4] == h;
  }

  // ---------------------------------------------------------------- well-formed streams

  /** What was received of the message in hand. */
  function InHand(p: Parser): seq<byte> {
    if p.state == Body then p.header + p.body + p.pending else p.pending
  }

  /** `u` is what was received of the messages `ms`, and the parser is at the right place in it. */
  ghost predicate Placed(p: Parser, ms: List, u: seq<byte>) {
    u == InHand(p) && u <= Stream(ms)
    && match p.state
       case Waiting => p.off == 0
       case Acquiring => p.off == 0 && ms.Cons? && StartsLike(ms.head.header, u)
       case Body =>
         ms.Cons? && p.header == ms.head.header && p.need == |ms.head.body| && |p.body| < p.need && p.off <= |p.header|
  }

  /** Nothing more can be made of what was received. */
  predicate Quiet(p: Parser, ms: List) {
    match p.state
    case Waiting => ms.Cons? ==> |p.pending| < LineEnd(ms.head.header, 0) + 2
    case Acquiring => ms.Cons? && |p.pending| < |ms.head.header|
    case Body => p.pending == []
  }

  /** A message more: what was received of it and of those behind it. */
  predicate Delivered(p: Parser, ms: List, u: seq<byte>, q: Parser) {
    ms.Cons? && Size(ms.head) <= |u| && q == Parser(Waiting, 0, u[Size(ms.head)..], [], 0, [],
                                                    Append(p.delivered, ms.head))
  }

  lemma Split(m: Message, t: seq<byte>, u: seq<byte>)
    requires u <= m.header + m.body + t
    ensures |u| >= |m.header| ==> u[..|m.header|] == m.header && u[|m.header|..] <= m.body + t
    ensures |u| < |m.header| ==> u == m.header[..|u|]
    ensures |u| >= Size(m) ==> u[|m.header|..][..|m.body|] == m.body && u[Size(m)..] <= t
    ensures |m.header| <= |u| < Size(m) ==> u[|m.header|..] == m.body[..|u| - |m.header|]
  {
    var all := m.header + m.body + t;
    assert u == all[..|u|];
    assert all[..|m.header|] == m.header && all[|m.header|..] == m.body + t && all[Size(m)..] == t;
    if |u| >= |m.header| {
      assert u[|m.header|..] == all[|m.header|..|u|];
      assert u[..|m.header|] == all[..|m.header|];
    }
  }

  /** Receiving a body. */
  lemma BodyTurnGood(p: Parser, ms: List, u: seq<byte>)
    requires Placed(p, ms, u) && p.state == Body
    ensures match BodyTurn(p)
            case Stop(q) => Placed(q, ms, u) && Quiet(q, ms) && q.delivered == p.delivered
            case Again(q) => Delivered(p, ms, u, q)
  {
    var m, t := ms.head, Stream(ms.tail);
    Split(m, t, u);
    var got := p.body + p.pending;
    assert u[|m.header|..] == got;
    if p.pending == [] && p.body == [] {
      assert Quiet(p, ms);
    } else if |got| < p.need {
      assert p.pending[|p.pending|..] == [] && p.pending[..|p.pending|] == p.pending;
      assert p.header + got + [] == u;
    } else {
      var n := p.need - |p.body|;
      assert got[..p.need] == p.body + p.pending[..n];
      assert u[Size(m)..] == p.pending[n..];
    }
  }

  /**
   What a turn makes of a parser that is placed: it stays placed and is quiet, or it delivered the message in hand.
   */
  ghost predicate TurnedWell(t: Outcome, p: Parser, ms: List, u: seq<byte>) {
    match t
    case Stop(q) => Placed(q, ms, u) && Quiet(q, ms) && q.delivered == p.delivered
    case Again(q) => Delivered(p, ms, u, q)
  }

  /** A header that is there, with a body to come. */
  lemma HeaderWithBody(p: Parser, ms: List, u: seq<byte>, q: Parser)
    requires Placed(p, ms, u) && p.state == Acquiring && |u| >= |ms.head.header| && ms.head.body != []
    requires var h := ms.head.header;
             q == Parser(Body, p.off + |h|, p.pending[|h|..], h, |ms.head.body|, [], p.delivered)
    ensures q.Valid() && TurnedWell(BodyTurn(q), p, ms, u)
  {
    Split(ms.head, Stream(ms.tail), u);
    assert ms.head.header + [] + q.pending == u;
    BodyTurnGood(q, ms, u);
  }

  /** What is found once the header is there. */
  lemma HeaderFound(o: Oracle, p: Parser, m: Message)
    requires p.state == Acquiring && HeaderEnd(p.pending, 0) + 4 == |m.header| <= |p.pending|
             && p.pending[..|m.header|] == m.header
    requires o.parse(m.header) == Parsed(|m.header|, |m.body|) && m.header != []
    ensures var h := m.header;
            HeaderStep(o, p)
            == if m.body != [] then On(Parser(Body, p.off + |h|, p.pending[|h|..], h, |m.body|, [], p.delivered))
               else Ended(Again(Parser(Waiting, 0, p.pending[|h|..], [], 0, [], Append(p.delivered, m))))
  {
    assert m.body == [] ==> m == Message(m.header, []);
  }

  lemma HeaderStepIs(o: Oracle, p: Parser, ms: List, u: seq<byte>)
    requires Placed(p, ms, u) && p.state == Acquiring && WellFormed(o, ms.head) && |u| >= |ms.head.header|
    ensures var h, body := ms.head.header, ms.head.body;
            HeaderStep(o, p)
            == if body != [] then On(Parser(Body, p.off + |h|, p.pending[|h|..], h, |body|, [], p.delivered))
               else Ended(Again(Parser(Waiting, 0, p.pending[|h|..], [], 0, [], Append(p.delivered, ms.head))))
  {
    var m := ms.head;
    Split(m, Stream(ms.tail), u);
    HeaderEndFound(u, m.header, 0);
    assert p.pending[..|m.header|] == m.header;
    HeaderFound(o, p, m);
  }

  /** Receiving a header. */
  lemma HeaderTurnGood(o: Oracle, p: Parser, ms: List, u: seq<byte>)
    requires Placed(p, ms, u) && p.state == Acquiring && WellFormed(o, ms.head)
    ensures TurnedWell(HeaderTurn(o, p), p, ms, u)
  {
    var h := ms.head.header;
    if |u| < |h| {
      Split(ms.head, Stream(ms.tail), u);
      HeaderEndMissing(u, h, 0);
    } else {
      HeaderStepIs(o, p, ms, u);
      if ms.head.body != [] {
        HeaderWithBody(p, ms, u, Parser(Body, p.off + |h|, p.pending[|h|..], h, |ms.head.body|, [], p.delivered));
      }
    }
  }

  /** The first line of the message is there, or no line ends yet. */
  lemma FirstLineSeen(o: Oracle, m: Message, t: seq<byte>, u: seq<byte>)
    requires WellFormed(o, m) && u <= m.header + m.body + t
    ensures var c := LineEnd(m.header, 0);
            if |u| < c + 2 then |u| < |m.header| && LineEnd(u, 0) == |u|
            else StartsLike(m.header, u) && LineEnd(u, 0) == c < |u| && o.start(u) == 0
  {
    var h, c := m.header, LineEnd(m.header, 0);
    FirstLine(o, m);
    Split(m, t, u);
    if |u| < c + 2 {
      LineEndMissing(u, h, 0);
    } else {
      if |u| >= |h| {
        assert u[..c + 2] == u[..|h|][..c + 2];
      } else {
        assert h[..|u|][..c + 2] == h[..c + 2];
      }
      LineEndSame(u, h, 0);
      assert StartsLike(h, u);
    }
  }

  /** What the search for the first line comes to. */
  lemma StartStepIs(o: Oracle, p: Parser, u: seq<byte>)
    requires p.state == Waiting && p.off == 0 && p.pending == u && |u| <= BUFFER - 1
    requires LineEnd(u, 0) == |u| < BUFFER - 1 || (2 <= |u| && LineEnd(u, 0) < |u| && o.start(u) == 0)
    ensures StartStep(o, p) == if LineEnd(u, 0) == |u| then Ended(Stop(p)) else On(p.(state := Acquiring))
  {
    assert u[0..] == u;
  }

  /** Waiting for a message: the first line says that it starts here. */
  lemma WaitingTurnGood(o: Oracle, p: Parser, ms: List, u: seq<byte>)
    requires Placed(p, ms, u) && p.state == Waiting && ms.Cons? && WellFormed(o, ms.head) && |u| <= BUFFER - 1
    ensures TurnedWell(Turn(o, p), p, ms, u)
  {
    FirstLineSeen(o, ms.head, Stream(ms.tail), u);
    StartStepIs(o, p, u);
    if LineEnd(u, 0) < |u| {
      HeaderTurnGood(o, p.(state := Acquiring), ms, u);
    }
  }

  lemma TurnGood(o: Oracle, p: Parser, ms: List, u: seq<byte>)
    requires Placed(p, ms, u) && p.Valid() && p.pending != [] && AllWellFormed(o, ms) && |p.pending| <= BUFFER - 1
    ensures ms.Cons? && TurnedWell(Turn(o, p), p, ms, u)
  {
    if ms == Nil {
      assert false;
    }
    match p.state {
      case Waiting => WaitingTurnGood(o, p, ms, u);
      case Acquiring => HeaderTurnGood(o, p, ms, u);
      case Body => BodyTurnGood(p, ms, u);
    }
  }

  // ---------------------------------------------------------------- what is delivered

  /** How many messages are complete in the first `n` octets of their stream. */
  function Complete(ms: List, n: nat): nat {
    if ms == Nil || n < Size(ms.head) then 0 else 1 + Complete(ms.tail, n - Size(ms.head))
  }

  function Concat(a: List, b: List): List {
    if a == Nil then b else Cons(a.head, Concat(a.tail, b))
  }

  function Take(ms: List, k: nat): List {
    if ms == Nil || k == 0 then Nil else Cons(ms.head, Take(ms.tail, k - 1))
  }

  function Drop(ms: List, k: nat): List {
    if ms == Nil || k == 0 then ms else Drop(ms.tail, k - 1)
  }

  lemma {:induction false} AppendConcat(d: List, m: Message, l: List)
    ensures Concat(Append(d, m), l) == Concat(d, Cons(m, l))
    decreases d
  {
    if d != Nil {
      AppendConcat(d.tail, m, l);
    }
  }

  lemma {:induction false} ConcatNil(d: List)
    ensures Concat(d, Nil) == d
    decreases d
  {
    if d != Nil {
      ConcatNil(d.tail);
    }
  }

  /** What is left in hand of `u`, once the complete messages of `ms` are taken out of it. */
  function Remainder(ms: List, u: seq<byte>): seq<byte> {
    if ms == Nil || |u| < Size(ms.head) then u else Remainder(ms.tail, u[Size(ms.head)..])
  }

  /** A quiet parser has less than a message in hand. */
  lemma QuietIsPartial(o: Oracle, p: Parser, ms: List, u: seq<byte>)
    requires Placed(p, ms, u) && Quiet(p, ms) && AllWellFormed(o, ms)
    ensures ms.Cons? ==> |u| < Size(ms.head)
    ensures ms == Nil ==> u == []
  {
    if ms.Cons? {
      FirstLine(o, ms.head);
    }
  }

  lemma NoneComplete(o: Oracle, p: Parser, ms: List, u: seq<byte>)
    requires Placed(p, ms, u) && Quiet(p, ms) && AllWellFormed(o, ms)
    ensures var c := Complete(ms, |u|);
            p.delivered == Concat(p.delivered, Take(ms, c)) && Drop(ms, c) == ms && Remainder(ms, u) == u
  {
    QuietIsPartial(o, p, ms, u);
    ConcatNil(p.delivered);
  }

  lemma OneComplete(d: List, ms: List, u: seq<byte>)
    requires ms.Cons? && Size(ms.head) <= |u|
    ensures var c, v := Complete(ms, |u|), u[Size(ms.head)..];
            Drop(ms, c) == Drop(ms.tail, Complete(ms.tail, |v|)) && Remainder(ms, u) == Remainder(ms.tail, v)
            && Concat(d, Take(ms, c)) == Concat(Append(d, ms.head), Take(ms.tail, Complete(ms.tail, |v|)))
  {
    AppendConcat(d, ms.head, Take(ms.tail, Complete(ms.tail, |u| - Size(ms.head))));
  }

  /** What the loop is to leave of the messages `ms`, of which `u` was received. */
  ghost predicate Drained(q: Parser, d: List, ms: List, u: seq<byte>) {
    var c := Complete(ms, |u|);
    q.delivered == Concat(d, Take(ms, c)) && Placed(q, Drop(ms, c), Remainder(ms, u)) && Quiet(q, Drop(ms, c))
      && q.Valid()
  }

  /** Behind a message that was delivered the parser is placed anew. */
  lemma DeliveredPlaced(o: Oracle, p: Parser, ms: List, u: seq<byte>, q: Parser)
    requires Delivered(p, ms, u, q) && u <= Stream(ms) && AllWellFormed(o, ms)
    ensures Placed(q, ms.tail, u[Size(ms.head)..]) && q.Valid() && (q.pending == [] ==> Quiet(q, ms.tail))
  {
    Split(ms.head, Stream(ms.tail), u);
  }

  /** The loop delivers every message that is complete in `u`, and is left quiet with the rest. */
  lemma {:induction false} DrainGood(o: Oracle, p: Parser, ms: List, u: seq<byte>)
    requires Placed(p, ms, u) && p.Valid() && AllWellFormed(o, ms) && |p.pending| <= BUFFER - 1
    requires p.pending == [] ==> Quiet(p, ms)
    ensures Drained(Drain(o, p), p.delivered, ms, u)
    decreases |p.pending|
  {
    if p.pending == [] {
      NoneComplete(o, p, ms, u);
    } else {
      TurnConsumes(o, p);
      TurnGood(o, p, ms, u);
      var q := Turn(o, p).p;
      if Turn(o, p).Stop? {
        NoneComplete(o, q, ms, u);
      } else {
        DeliveredPlaced(o, p, ms, u, q);
        OneComplete(p.delivered, ms, u);
        DrainGood(o, q, ms.tail, u[Size(ms.head)..]);
      }
    }
  }

  // ---------------------------------------------------------------- any segmentation

  /** The reads of `pieces`, one after another, and that each of them fits the buffer. */
  function Reads(o: Oracle, p: Parser, pieces: seq<seq<byte>>): Parser
    requires p.Valid()
    decreases |pieces|
  {
    if pieces == [] then p
    else
      DrainValid(o, p.(pending := p.pending + pieces[0]));
      Reads(o, Receive(o, p, pieces[0]), pieces[1..])
  }

  lemma {:induction false} DrainValid(o: Oracle, p: Parser)
    requires p.Valid()
    ensures Drain(o, p).Valid()
    decreases |p.pending|
  {
    if p.pending != [] {
      TurnConsumes(o, p);
      if Turn(o, p).Again? {
        DrainValid(o, Turn(o, p).p);
      }
    }
  }

  /** Each read leaves room for the terminating NUL. */
  predicate ReadsFit(o: Oracle, p: Parser, pieces: seq<seq<byte>>)
    requires p.Valid()
    decreases |pieces|
  {
    if pieces == [] then true
    else
      DrainValid(o, p.(pending := p.pending + pieces[0]));
      p.off + |p.pending| + |pieces[0]| <= 65534 && ReadsFit(o, Receive(o, p, pieces[0]), pieces[1..])
  }

  lemma MorePlaced(p: Parser, ms: List, u: seq<byte>, d: seq<byte>)
    requires Placed(p, ms, u) && u + d <= Stream(ms)
    ensures Placed(p.(pending := p.pending + d), ms, u + d)
  {
    assert p.header + p.body + (p.pending + d) == p.header + p.body + p.pending + d;
    if p.state == Acquiring {
      var c := LineEnd(ms.head.header, 0) + 2;
      assert (u + d)[..c] == u[..c];
    }
  }

  lemma {:induction false} Onward(ms: List, u: seq<byte>, w: seq<byte>)
    requires u + w <= Stream(ms)
    ensures var c, v := Complete(ms, |u|), Remainder(ms, u);
            v + w <= Stream(Drop(ms, c))
            && Take(ms, Complete(ms, |u + w|)) == Concat(Take(ms, c), Take(Drop(ms, c), Complete(Drop(ms, c), |v + w|)))
    decreases ms
  {
    if ms.Cons? && Size(ms.head) <= |u| {
      var n := Size(ms.head);
      Split(ms.head, Stream(ms.tail), u + w);
      assert (u + w)[n..] == u[n..] + w;
      Onward(ms.tail, u[n..], w);
    }
  }

  lemma {:induction false} ConcatConcat(a: List, b: List, c: List)
    ensures Concat(Concat(a, b), c) == Concat(a, Concat(b, c))
    decreases a
  {
    if a != Nil {
      ConcatConcat(a.tail, b, c);
    }
  }

  lemma {:induction false} DropWellFormed(o: Oracle, ms: List, k: nat)
    requires AllWellFormed(o, ms)
    ensures AllWellFormed(o, Drop(ms, k))
    decreases ms
  {
    if ms != Nil && k > 0 {
      DropWellFormed(o, ms.tail, k - 1);
    }
  }

  lemma OneRead(o: Oracle, p: Parser, ms: List, u: seq<byte>, d: seq<byte>)
    requires p.Valid() && Placed(p, ms, u) && Quiet(p, ms) && AllWellFormed(o, ms)
    requires |p.pending + d| <= BUFFER - 1 && u + d <= Stream(ms)
    ensures Drained(Receive(o, p, d), p.delivered, ms, u + d)
  {
    MorePlaced(p, ms, u, d);
    assert d == [] ==> p.pending + d == p.pending;
    DrainGood(o, p.(pending := p.pending + d), ms, u + d);
  }

  lemma Combine(d: List, q: List, ms: List, v: seq<byte>, w: seq<byte>)
    requires v + w <= Stream(ms) && q == Concat(d, Take(ms, Complete(ms, |v|)))
    ensures var ms', v' := Drop(ms, Complete(ms, |v|)), Remainder(ms, v);
            Concat(q, Take(ms', Complete(ms', |v' + w|))) == Concat(d, Take(ms, Complete(ms, |v + w|)))
  {
    var ms', v' := Drop(ms, Complete(ms, |v|)), Remainder(ms, v);
    Onward(ms, v, w);
    ConcatConcat(d, Take(ms, Complete(ms, |v|)), Take(ms', Complete(ms', |v' + w|)));
  }

  /** The first read, and what it leaves to the others. */
  lemma FirstRead(o: Oracle, p: Parser, ms: List, u: seq<byte>, d: seq<byte>, w: seq<byte>)
    returns (ms': List, v': seq<byte>)
    requires p.Valid() && Placed(p, ms, u) && Quiet(p, ms) && AllWellFormed(o, ms)
    requires |p.pending + d| <= BUFFER - 1 && (u + d) + w <= Stream(ms)
    ensures var q := Receive(o, p, d);
            q.Valid() && Placed(q, ms', v') && Quiet(q, ms') && AllWellFormed(o, ms') && v' + w <= Stream(ms')
            && Concat(q.delivered, Take(ms', Complete(ms', |v' + w|)))
               == Concat(p.delivered, Take(ms, Complete(ms, |(u + d) + w|)))
  {
    var q, v := Receive(o, p, d), u + d;
    assert v <= v + w;
    OneRead(o, p, ms, u, d);
    ms', v' := Drop(ms, Complete(ms, |v|)), Remainder(ms, v);
    Onward(ms, v, w);
    DropWellFormed(o, ms, Complete(ms, |v|));
    Combine(p.delivered, q.delivered, ms, v, w);
  }

  /** The reader between two reads: `u` is what it has taken of the stream of `ms`. */
  ghost predicate Between(o: Oracle, p: Parser, ms: List, u: seq<byte>) {
    p.Valid() && Placed(p, ms, u) && Quiet(p, ms) && AllWellFormed(o, ms)
  }

  lemma UnfoldReads(o: Oracle, p: Parser, pieces: seq<seq<byte>>, q: Parser)
    requires p.Valid() && ReadsFit(o, p, pieces) && pieces != [] && q == Receive(o, p, pieces[0])
    ensures q.Valid() && |p.pending + pieces[0]| <= BUFFER - 1 && Joined(pieces) == pieces[0] + Joined(pieces[1..])
    ensures ReadsFit(o, q, pieces[1..]) && Reads(o, p, pieces) == Reads(o, q, pieces[1..])
  {
    DrainValid(o, p.(pending := p.pending + pieces[0]));
  }

  /** `FirstRead` of the octets `all`. */
  lemma FirstOf(o: Oracle, p: Parser, ms: List, u: seq<byte>, d: seq<byte>, w: seq<byte>, all: seq<byte>, q: Parser)
    returns (ms': List, v': seq<byte>)
    requires Between(o, p, ms, u) && |p.pending + d| <= BUFFER - 1 && all == d + w && u + all <= Stream(ms)
             && q == Receive(o, p, d)
    ensures Between(o, q, ms', v') && v' + w <= Stream(ms')
    ensures Concat(q.delivered, Take(ms', Complete(ms', |v' + w|)))
            == Concat(p.delivered, Take(ms, Complete(ms, |u + all|)))
  {
    assert u + all == (u + d) + w;
    ms', v' := FirstRead(o, p, ms, u, d, w);
  }

  /**
   Framing does not depend on segmentation: of a stream of well-formed messages exactly those are delivered, header
   and body, that are complete in what was received, however it was cut into reads.
   */
  lemma {:induction false} Segmentation(o: Oracle, p: Parser, ms: List, u: seq<byte>, pieces: seq<seq<byte>>)
    requires Between(o, p, ms, u) && ReadsFit(o, p, pieces) && u + Joined(pieces) <= Stream(ms)
    ensures Reads(o, p, pieces).delivered == Concat(p.delivered, Take(ms, Complete(ms, |u + Joined(pieces)|)))
    decreases |pieces|
  {
    if pieces == [] {
      NoneComplete(o, p, ms, u);
      assert u + [] == u;
    } else {
      var q := Receive(o, p, pieces[0]);
      UnfoldReads(o, p, pieces, q);
      var ms', v' := FirstOf(o, p, ms, u, pieces[0], Joined(pieces[1..]), Joined(pieces), q);
      Segmentation(o, q, ms', v', pieces[1..]);
    }
  }

  /** The whole stream, from the start: every message is delivered, once and in order. */
  lemma {:induction false} WholeStream(o: Oracle, ms: List, pieces: seq<seq<byte>>)
    requires AllWellFormed(o, ms) && ReadsFit(o, START, pieces) && Joined(pieces) == Stream(ms)
    ensures Reads(o, START, pieces).delivered == ms
  {
    if ms.Cons? {
      FirstLine(o, ms.head);
    }
    assert [] + Joined(pieces) == Joined(pieces);
    Segmentation(o, START, ms, [], pieces);
    AllComplete(ms);
  }

  lemma {:induction false} AllComplete(ms: List)
    ensures Take(ms, Complete(ms, |Stream(ms)|)) == ms
    decreases ms
  {
    if ms != Nil {
      AllComplete(ms.tail);
    }
  }

  /** Between reads there is always room for another octet, so no read is taken for the end of the stream. */
  lemma {:induction false} RoomToRead(o: Oracle, p: Parser, ms: List, u: seq<byte>)
    requires Placed(p, ms, u) && Quiet(p, ms) && AllWellFormed(o, ms) && ms.Cons?
    ensures p.off + |p.pending| < 65534
  {
    FirstLine(o, ms.head);
  }

  // ---------------------------------------------------------------- the code

  class InputStream {
    const oracle: Oracle
    const buff: array<byte>
    var read: nat
    var write: nat
    var state: State
    var header: seq<byte>
    var need: nat
    var body: seq<byte>
    var delivered: List

    ghost predicate Valid()
      reads this
    {
      buff.Length == BUFFER && read <= write < BUFFER && (state == Body ==> |body| < need)
    }

    ghost function View(): Parser
      reads this, buff
      requires buff.Length == BUFFER && read <= write < BUFFER
    {
      Parser(state, read, buff[read..write], header, need, body, delivered)
    }

    constructor (oracle: Oracle)
      ensures Valid() && View() == START && fresh(buff) && this.oracle == oracle
    {
      this.oracle := oracle;
      buff := new byte[BUFFER];
      read, write := 0, 0;
      state, header, need, body, delivered := Waiting, [], 0, [], Nil;
    }

    /** `belle_sip_channel_input_stream_rewind`. */
    method Rewind()
      requires buff.Length == BUFFER && read <= write < BUFFER
      modifies this`read, this`write, buff
      ensures read == 0 && write < BUFFER && buff[..write] == old(buff[read..write])
    {
      var remaining := write - read;
      if remaining > 0 {
        forall i | 0 <= i < remaining {
          buff[i] := buff[read + i];
        }
        read := 0;
        write := remaining;
        buff[write] := 0;
      } else {
        read, write := 0, 0;
      }
    }

    /** `belle_sip_channel_message_ready`, with the reset of the stream. */
    method MessageReady()
      requires buff.Length == BUFFER && read <= write < BUFFER
      modifies this, buff
      ensures Valid() && View() == Ready(old(View()))
    {
      delivered := Append(delivered, Message(header, body));
      Rewind();
      state, header, need, body := Waiting, [], 0, [];
      assert buff[0..write] == buff[..write];
    }

    /** `feed_body`. */
    method FeedBody(len: nat)
      requires buff.Length == BUFFER && read + len <= write < BUFFER
      modifies this`read, this`write, this`body, buff
      ensures read <= write < BUFFER
      ensures var p := old(View());
              View() == p.(off := 0, pending := p.pending[len..], body := p.body + p.pending[..len])
    {
      ghost var pending := buff[read..write];
      body := body + buff[read..read + len];
      read := read + len;
      assert pending[..len] == buff[old(read)..read] && pending[len..] == buff[read..write];
      Rewind();
      assert buff[0..write] == buff[..write];
    }

    /** `acquire_body_simple`; true is BELLE_SIP_CONTINUE. */
    method AcquireBodySimple() returns (again: bool)
      requires Valid() && state == Body
      modifies this, buff
      ensures Valid() && BodyTurn(old(View())) == if again then Again(View()) else Stop(View())
    {
      var toRead := write - read;
      if |body| == 0 && toRead == 0 {
      } else {
        var n := if need - |body| < toRead then need - |body| else toRead;
        FeedBody(n);
      }
      again := |body| >= need;
      if again {
        MessageReady();
      }
    }

    /** Whether there is an end of line, or no room for more. */
    method SeesLine() returns (b: bool)
      requires Valid() && read < write
      ensures var p := View(); b == (|p.pending| >= 2 && (p.Full() || LineEnd(p.pending, 0) < |p.pending|))
    {
      ghost var s := buff[read..write];
      var num := write - read;
      var i: nat := 0;
      while i < num - 1 && !(buff[read + i] == CR && buff[read + i + 1] == LF) && BUFFER - write > 1
        invariant i <= num - 1 && LineEnd(s, 0) == LineEnd(s, i)
        invariant i > 0 ==> BUFFER - write > 1
      {
        i := i + 1;
      }
      assert i == num - 1 ==> LineEnd(s, i) == num;
      b := i < num - 1;
    }

    /** The search for a message's first line: 0 for a message, 1 for too little data, 2 for octets thrown away. */
    method FindStart() returns (r: nat)
      requires Valid() && state == Waiting && read < write
      modifies this, buff
      ensures Valid()
      ensures StartStep(oracle, old(View()))
              == if r == 0 then On(View()) else if r == 1 then Ended(Stop(View())) else Ended(Again(View()))
    {
      var b := SeesLine();
      if !b {
        return 1;
      }
      var at := oracle.start(buff[read..write]);
      if 0 <= at < write - read {
        Consume(at);
        state := Acquiring;
        return 0;
      }
      read := write;
      Rewind();
      state, header, need, body := Waiting, [], 0, [];
      r := 2;
    }

    /** `read_ptr += n`. */
    method Consume(n: nat)
      requires Valid() && read + n <= write
      modifies this`read
      ensures Valid() && View() == old(View().(off := read + n, pending := buff[read..write][n..]))
    {
      assert buff[read + n..write] == buff[read..write][n..];
      read := read + n;
    }

    /** A header was parsed: its body comes next, or the message is complete. */
    method TakeHeader(h: seq<byte>, parsed: Parsed) returns (r: nat)
      requires Valid() && state == Acquiring && 0 < parsed.used <= write - read
      modifies this, buff
      ensures Valid()
      ensures var p := old(View());
              var q := p.(off := p.off + parsed.used, pending := p.pending[parsed.used..], header := h, body := []);
              if parsed.contentLength > 0 then r == 0 && View() == q.(state := Body, need := parsed.contentLength)
              else r == 2 && View() == Ready(q)
    {
      Consume(parsed.used);
      header, body := h, [];
      if parsed.contentLength > 0 {
        state, need := Body, parsed.contentLength;
        return 0;
      }
      MessageReady();
      r := 2;
    }

    /** The search for the empty line, and the parsing of the header: 0 for a body to come, 1 to stop, 2 to go on. */
    method FindHeader() returns (r: nat)
      requires Valid() && state == Acquiring
      modifies this, buff
      ensures Valid()
      ensures HeaderStep(oracle, old(View()))
              == if r == 0 then On(View()) else if r == 1 then Ended(Stop(View())) else Ended(Again(View()))
    {
      var e := HeaderEnd(buff[read..write], 0);
      if e == write - read {
        return 1;
      }
      var h := buff[read..write][..e + 4];
      var parsed := oracle.parse(h);
      if !(0 < parsed.used <= write - read) {
        Consume(|h|);
        state := Waiting;
        return 2;
      }
      r := TakeHeader(h, parsed);
    }

    /** One turn of the loop; true is `continue`. */
    method OneTurn() returns (again: bool)
      requires Valid() && read < write
      modifies this, buff
      ensures Valid() && Turn(oracle, old(View())) == if again then Again(View()) else Stop(View())
    {
      if state == Waiting {
        var r := FindStart();
        if r != 0 {
          return r != 1;
        }
      }
      if state == Acquiring {
        var r := FindHeader();
        if r != 0 {
          return r != 1;
        }
      }
      again := AcquireBodySimple();
    }

    /** `belle_sip_channel_parse_stream`. */
    method ParseStream()
      requires Valid()
      modifies this, buff
      ensures Valid() && View() == Drain(oracle, old(View()))
    {
      ghost var all := Drain(oracle, View());
      while write > read
        invariant Valid() && Drain(oracle, View()) == all
        decreases write - read
      {
        TurnConsumes(oracle, View());
        var again := OneTurn();
        if !again {
          return;
        }
      }
    }

    /** `data` is put behind what lies in the buffer, and a NUL behind it. */
    method Fill(data: seq<byte>)
      requires buff.Length == BUFFER && read <= write && write + |data| < BUFFER
      modifies this`write, buff
      ensures read <= write < BUFFER && View() == old(View().(pending := buff[read..write] + data))
    {
      ghost var p := View();
      forall i | 0 <= i < |data| {
        buff[write + i] := data[i];
      }
      write := write + |data|;
      buff[write] := 0;
      assert buff[read..write] == p.pending + data;
    }

    /** A read of `data`, as `belle_sip_channel_process_read_data` asks for it: with room for a NUL behind. */
    method ReceiveData(data: seq<byte>)
      requires Valid() && write + |data| < BUFFER
      modifies this, buff
      ensures Valid() && View() == Receive(oracle, old(View()), data)
    {
      Fill(data);
      ParseStream();
    }
  }
}
