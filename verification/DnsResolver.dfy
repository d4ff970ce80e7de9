/**
 The resolver of `dns.c`: a stack of eight frames that `dns_res_exec` drives.  Packets are known by their identity, and
 everything the resolver learns from outside (answers, failures, sizes) comes from an `Env`.
 */
module DnsResolver {
  import opened Wrappers

  /** The states of a frame, as `enum dns_res_state` names them. */
  datatype State =
    | Init | Glue | Switch | File | Cache | Submit | Check | Fetch | Bind | Search | Hints | Iterate | ForeachNs
    | Resolv0 | Resolv1 | ForeachA | QueryA | Cname0 | Cname1 | Finish | Smart0 | Smart1 | Done | Servfail

  /**
   `struct dns_res_frame`. Of the iterators there are bounds: the name servers without glue and those still to be
   visited, and the addresses still to be visited; `seen` is whether the current server had any.
   */
  datatype Frame = Frame(
    state: State, which: nat, attempts: nat,
    query: Option<nat>, answer: Option<nat>, hints: Option<nat>,
    unglued: nat, servers: nat, addresses: nat, seen: bool)

  const EMPTY := Frame(Init, 0, 0, None, None, None, 0, 0, 0, false)

  const MAXDEPTH: nat := 8

  /** What does not change during a run; `names` is how many names the search list gives. */
  datatype Config = Config(lookup: string, cache: bool, recurse: bool, smart: bool, mx: bool, attempts: nat, names: nat)

  /**
   The resolver. `smart` bounds the records of the answer that still lead to a lookup, `returned` counts those the
   iterator gave. `live` are the packets that are allocated.
   */
  datatype Resolver = Resolver(stack: seq<Frame>, sp: nat, search: nat, smart: nat, returned: nat, live: set<nat>) {
    predicate Sized() {
      |stack| == MAXDEPTH && sp < MAXDEPTH
    }

    function Top(): Frame
      requires Sized()
    {
      stack[sp]
    }
  }

  /**
   In one step: whether each call that may fail succeeds, how each question comes out, the sizes met, and the new
   packets.
   */
  datatype Env = Env(ok: nat -> bool, yes: nat -> bool, size: nat -> nat, packet: nat -> nat)

  function Freed(live: set<nat>, o: Option<nat>): set<nat> {
    if o.Some? then live - {o.value} else live
  }

  function Allocated(live: set<nat>, o: Option<nat>): set<nat> {
    if o.Some? then live + {o.value} else live
  }

  // ---------------------------------------------------------------- what the code does to a frame

  /** A frame's fields that are no pointers are set. */
  function Put(r: Resolver, i: nat, f: Frame): (r': Resolver)
    requires r.Sized() && i < MAXDEPTH && f.query == r.stack[i].query && f.answer == r.stack[i].answer
             && f.hints == r.stack[i].hints
    ensures r'.Sized()
  {
    r.(stack := r.stack[i := f])
  }

  /** The top frame goes on in state `s`. */
  function Go(r: Resolver, s: State): (r': Resolver)
    requires r.Sized()
    ensures r'.Sized()
  {
    Put(r, r.sp, r.Top().(state := s))
  }

  /** `free`, and a new packet in its place. */
  function PutAnswer(r: Resolver, i: nat, o: Option<nat>): (r': Resolver)
    requires r.Sized() && i < MAXDEPTH
    ensures r'.Sized()
  {
    var f := r.stack[i].(answer := o);
    r.(stack := r.stack[i := f], live := Allocated(Freed(r.live, r.stack[i].answer), o))
  }

  function PutQuery(r: Resolver, i: nat, o: Option<nat>): (r': Resolver)
    requires r.Sized() && i < MAXDEPTH
    ensures r'.Sized()
  {
    var f := r.stack[i].(query := o);
    r.(stack := r.stack[i := f], live := Allocated(Freed(r.live, r.stack[i].query), o))
  }

  function PutHints(r: Resolver, i: nat, o: Option<nat>): (r': Resolver)
    requires r.Sized() && i < MAXDEPTH
    ensures r'.Sized()
  {
    var f := r.stack[i].(hints := o);
    r.(stack := r.stack[i := f], live := Allocated(Freed(r.live, r.stack[i].hints), o))
  }

  /** An answer that is assigned with no `free` of the one before. */
  function SetAnswer(r: Resolver, o: Option<nat>): (r': Resolver)
    requires r.Sized()
    ensures r'.Sized()
  {
    var s := PutAnswer(r, r.sp, o);
    s.(live := s.live + r.live)
  }

  /** The answer becomes the hints. */
  function Refer(r: Resolver): (r': Resolver)
    requires r.Sized()
    ensures r'.Sized()
  {
    var f := r.Top().(hints := r.Top().answer, answer := None);
    r.(stack := r.stack[r.sp := f], live := Freed(r.live, r.Top().hints))
  }

  /** `dns_res_reset_frame`. */
  function Reset(r: Resolver, i: nat): (r': Resolver)
    requires r.Sized() && i < MAXDEPTH
    ensures r'.Sized()
  {
    Put(PutHints(PutAnswer(PutQuery(r, i, None), i, None), i, None), i, EMPTY)
  }

  // ---------------------------------------------------------------- the states

  /** What a turn of `dns_res_exec` comes to: on to the next state, or a return, without an error or with one. */
  datatype Outcome = Again(r: Resolver) | Return(r: Resolver, ok: bool)

  function Jump(r: Resolver, s: State): Outcome
    requires r.Sized()
  {
    Again(Go(r, s))
  }

  function Fail(r: Resolver): Outcome {
    Return(r, false)
  }

  /** DNS_R_GLUE: an answer from what the frames already hold. */
  function GlueTurn(r: Resolver, e: Env): Outcome
    requires r.Sized()
  {
    if r.sp == 0 then Jump(r, Switch)
    else if !e.yes(0) then Jump(SetAnswer(r, None), Switch)
    else
      var s := SetAnswer(r, Some(e.packet(0)));
      if !e.ok(0) then Fail(s)
      else if e.yes(1) then Jump(s, Finish)
      else if e.yes(2) then Jump(s, Cname0)
      else Jump(s, Switch)
  }

  /** The next lookup method from `which` on that can be used, and the index behind it. */
  function Method(c: Config, which: nat): (State, nat)
    decreases |c.lookup| - which
  {
    if which >= |c.lookup| || c.lookup[which] == 0 as char then (Servfail, which)
    else if c.lookup[which] == 'b' || c.lookup[which] == 'B' then (Bind, which + 1)
    else if c.lookup[which] == 'f' || c.lookup[which] == 'F' then (File, which + 1)
    else if (c.lookup[which] == 'c' || c.lookup[which] == 'C') && c.cache then (Cache, which + 1)
    else Method(c, which + 1)
  }

  /** DNS_R_SWITCH. */
  function SwitchTurn(c: Config, r: Resolver): Outcome
    requires r.Sized()
  {
    var (s, which) := Method(c, r.Top().which);
    Jump(Put(r, r.sp, r.Top().(which := which)), s)
  }

  /** The names of the search list from the current one on, looked up in the hosts file; `k` were tried before. */
  function FileTurns(c: Config, r: Resolver, e: Env, k: nat): Outcome
    requires r.Sized()
    decreases c.names - r.search
  {
    if r.search >= c.names then Jump(r, Switch)
    else
      var s := r.(search := r.search + 1);
      if !e.ok(2 * k) then Fail(s)
      else if !e.ok(2 * k + 1) then Fail(PutAnswer(s, s.sp, None))
      else
        var t := PutAnswer(s, s.sp, Some(e.packet(k)));
        if e.yes(k) then Jump(t, Finish) else FileTurns(c, PutAnswer(t, t.sp, None), e, k + 1)
  }

  /** DNS_R_FILE. */
  function FileTurn(c: Config, r: Resolver, e: Env): Outcome
    requires r.Sized()
  {
    if r.sp == 0 then FileTurns(c, r.(search := 0), e, 0)
    else if !e.ok(0) then Fail(PutAnswer(r, r.sp, None))
    else
      var s := PutAnswer(r, r.sp, Some(e.packet(0)));
      if e.yes(0) then Jump(s, Finish) else Jump(PutAnswer(s, s.sp, None), Switch)
  }

  /** What the cache gives: an answer with records, one without, or none, for which the code goes on in state `s`. */
  function Cached(r: Resolver, e: Env, s: State): Outcome
    requires r.Sized()
  {
    if e.yes(0) then
      var t := PutAnswer(r, r.sp, Some(e.packet(1)));
      if e.yes(1) then Jump(t, Finish) else Jump(PutAnswer(t, t.sp, None), Switch)
    else
      var t := PutAnswer(r, r.sp, None);
      if !e.ok(1) then Fail(t) else Jump(t, s)
  }

  /** DNS_R_CACHE. */
  function CacheTurn(r: Resolver, e: Env): Outcome
    requires r.Sized()
  {
    if r.Top().query.Some? then Cached(r, e, Submit)
    else if !e.ok(0) then Fail(r)
    else Cached(PutQuery(r, r.sp, Some(e.packet(0))), e, Submit)
  }

  /** DNS_R_SUBMIT and DNS_R_CHECK. */
  function AskTurn(r: Resolver, e: Env, s: State): Outcome
    requires r.Sized()
  {
    if !e.ok(0) then Fail(r) else Jump(r, s)
  }

  /** DNS_R_BIND. */
  function BindTurn(r: Resolver): Outcome
    requires r.Sized()
  {
    if r.sp > 0 then Jump(r, Hints) else Jump(r.(search := 0), Search)
  }

  /** DNS_R_SEARCH. */
  function SearchTurn(c: Config, r: Resolver, e: Env): Outcome
    requires r.Sized()
  {
    if r.search >= c.names then Jump(r, Switch)
    else
      var s := r.(search := r.search + 1);
      if !e.ok(0) then Fail(s)
      else
        var t := PutQuery(s, s.sp, Some(e.packet(0)));
        if !e.ok(1) then Fail(t) else Jump(t, Hints)
  }

  /** DNS_R_HINTS. */
  function HintsTurn(r: Resolver, e: Env): Outcome
    requires r.Sized()
  {
    if !e.ok(0) then Fail(PutHints(r, r.sp, None))
    else
      var s := PutHints(r, r.sp, Some(e.packet(0)));
      Jump(Put(s, s.sp, s.Top().(unglued := e.size(0))), Iterate)
  }

  /** DNS_R_ITERATE. */
  function IterateTurn(r: Resolver, e: Env): Outcome
    requires r.Sized()
  {
    Jump(Put(r, r.sp, r.Top().(servers := e.size(0))), ForeachNs)
  }

  /** DNS_R_FOREACH_NS. */
  function ForeachNsTurn(c: Config, r: Resolver, e: Env): Outcome
    requires r.Sized()
  {
    var f := r.Top();
    if f.servers == 0 || !e.yes(0) then
      Jump(Put(r, r.sp, f.(attempts := f.attempts + 1)), if f.attempts + 1 < c.attempts then Iterate else Switch)
    else Jump(Put(r, r.sp, f.(servers := f.servers - 1, addresses := e.size(0), seen := false)), ForeachA)
  }

  /** A new frame whose query is `p`; the one below goes on in state `s` once it is done. */
  function Push(r: Resolver, s: State, p: nat): (r': Resolver)
    requires r.Sized() && r.sp + 1 < MAXDEPTH
    ensures r'.Sized()
  {
    var t := Go(PutQuery(r, r.sp + 1, Some(p)), s);
    Go(t.(sp := r.sp + 1), Init)
  }

  /** DNS_R_RESOLV0_NS. */
  function Resolv0Turn(r: Resolver, e: Env): Outcome
    requires r.Sized()
  {
    if r.sp + 1 >= MAXDEPTH then Jump(r, ForeachNs)
    else
      var s := Reset(r, r.sp + 1);
      if !e.ok(0) then Fail(s)
      else if !e.ok(1) then Fail(PutQuery(s, s.sp + 1, Some(e.packet(0))))
      else Again(Push(s, Resolv1, e.packet(0)))
  }

  /**
   DNS_R_RESOLV1_NS. When addresses were found they become glue of the server that was looked up, and the iteration
   starts over from it.
   */
  function Resolv1Turn(r: Resolver, e: Env): Outcome
    requires r.Sized()
  {
    if !e.ok(0) then Fail(r)
    else
      var f := r.Top();
      var s := if e.yes(0) && f.unglued > 0 then Put(r, r.sp, f.(unglued := f.unglued - 1, servers := e.size(0)))
               else r;
      if !e.ok(1) then Fail(s) else Jump(s, ForeachNs)
  }

  /** DNS_R_FOREACH_A. */
  function ForeachATurn(r: Resolver, e: Env): Outcome
    requires r.Sized()
  {
    var f := r.Top();
    if !e.ok(0) then Fail(r)
    else if f.addresses == 0 || !e.yes(0) then Jump(r, if f.seen then ForeachNs else Resolv0)
    else
      var s := Put(r, r.sp, f.(addresses := f.addresses - 1, seen := true));
      if !e.ok(1) then Fail(s) else Jump(s, QueryA)
  }

  /** What the answer of a name server leads to. */
  function Answered(c: Config, s: Resolver, e: Env): Outcome
    requires s.Sized()
  {
    if !e.ok(2) then Fail(s)
    else if e.yes(1) then Jump(s, Finish)
    else if e.yes(2) then Jump(s, Cname0)
    else if !c.recurse then Jump(s, Search)
    else if e.yes(3) then
      var t := Refer(s);
      Jump(Put(t, t.sp, t.Top().(unglued := e.size(0))), Iterate)
    else if e.yes(4) then Jump(s, Finish)
    else Jump(s, ForeachA)
  }

  /** DNS_R_QUERY_A. */
  function QueryATurn(c: Config, r: Resolver, e: Env): Outcome
    requires r.Sized()
  {
    if e.yes(0) then Jump(r, ForeachA)
    else if !e.ok(0) then Fail(r)
    else if !e.ok(1) then Fail(PutAnswer(r, r.sp, None))
    else Answered(c, PutAnswer(r, r.sp, Some(e.packet(0))), e)
  }

  /** DNS_R_CNAME0_A. */
  function Cname0Turn(r: Resolver, e: Env): Outcome
    requires r.Sized()
  {
    if r.sp + 1 >= MAXDEPTH then Jump(r, Finish)
    else if !e.ok(0) then Fail(r)
    else
      var s := Reset(r, r.sp + 1);
      if !e.ok(1) then Fail(s)
      else if !e.ok(2) then Fail(PutQuery(s, s.sp + 1, Some(e.packet(0))))
      else Again(Push(s, Cname1, e.packet(0)))
  }

  /** DNS_R_CNAME1_A: the two answers are merged. */
  function Cname1Turn(r: Resolver, e: Env): Outcome
    requires r.Sized()
  {
    if !e.ok(0) then Fail(r) else Jump(PutAnswer(r, r.sp, Some(e.packet(0))), Finish)
  }

  /** DNS_R_FINISH. */
  function FinishTurn(c: Config, r: Resolver, e: Env): Outcome
    requires r.Sized()
  {
    if !c.smart || r.sp > 0 then Jump(r, Done) else Jump(r.(smart := e.size(0), returned := 0), Smart0)
  }

  /** A new frame for a name the answer mentions. */
  function Ask(r: Resolver, e: Env, more: nat): Outcome
    requires r.Sized() && r.sp + 1 < MAXDEPTH
  {
    var s := Reset(r, r.sp + 1);
    if !e.ok(1) then Fail(s) else Again(Push(s.(returned := s.returned + more), Smart1, e.packet(0)))
  }

  /** DNS_R_SMART0_A: `e.size(0)` records that lead to no lookup are passed over. */
  function Smart0Turn(c: Config, r: Resolver, e: Env): Outcome
    requires r.Sized()
  {
    if r.sp + 1 >= MAXDEPTH then Jump(r, Done)
    else if r.smart > 0 && e.yes(0) then
      var s := r.(smart := r.smart - 1, returned := r.returned + e.size(0) + 1);
      if !e.ok(0) then Fail(s) else Ask(s, e, 0)
    else
      var s := r.(returned := r.returned + e.size(0));
      if c.mx && s.returned == 0 then Ask(s, e, 1) else Jump(s, Done)
  }

  /** DNS_R_SMART1_A: the addresses found are added to the answer, which may have to grow. */
  function Smart1Turn(r: Resolver, e: Env): Outcome
    requires r.Sized()
  {
    var s := if e.yes(0) then PutAnswer(r, r.sp, Some(e.packet(0))) else r;
    if !e.ok(0) then Fail(s) else Jump(s, Smart0)
  }

  /** DNS_R_DONE. */
  function DoneTurn(r: Resolver): Outcome
    requires r.Sized()
  {
    if r.sp > 0 then Again(r.(sp := r.sp - 1)) else Return(r, true)
  }

  /** DNS_R_SERVFAIL. */
  function ServfailTurn(r: Resolver, e: Env): Outcome
    requires r.Sized()
  {
    if !e.ok(0) then Fail(PutAnswer(r, r.sp, None))
    else
      var s := PutAnswer(r, r.sp, Some(e.packet(0)));
      if !e.ok(1) then Fail(s) else Jump(s, Done)
  }

  /** One turn, from the label `exec` to the next jump there, to the next case that is fallen into, or to a return. */
  function Turn(c: Config, r: Resolver, e: Env): Outcome
    requires r.Sized()
  {
    match r.Top().state
    case Init => Jump(r, Glue)
    case Glue => GlueTurn(r, e)
    case Switch => SwitchTurn(c, r)
    case File => FileTurn(c, r, e)
    case Cache => CacheTurn(r, e)
    case Submit => AskTurn(r, e, Check)
    case Check => AskTurn(r, e, Fetch)
    case Fetch => Cached(r, e, Switch)
    case Bind => BindTurn(r)
    case Search => SearchTurn(c, r, e)
    case Hints => HintsTurn(r, e)
    case Iterate => IterateTurn(r, e)
    case ForeachNs => ForeachNsTurn(c, r, e)
    case Resolv0 => Resolv0Turn(r, e)
    case Resolv1 => Resolv1Turn(r, e)
    case ForeachA => ForeachATurn(r, e)
    case QueryA => QueryATurn(c, r, e)
    case Cname0 => Cname0Turn(r, e)
    case Cname1 => Cname1Turn(r, e)
    case Finish => FinishTurn(c, r, e)
    case Smart0 => Smart0Turn(c, r, e)
    case Smart1 => Smart1Turn(r, e)
    case Done => DoneTurn(r)
    case Servfail => ServfailTurn(r, e)
  }
}
