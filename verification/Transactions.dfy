/**
 The four transaction machines of RFC 3261 (section 17) as belle-sip runs them, with the Accepted state of
 RFC 6026.  A handler changes the state, sets or clears timer slots, queues messages to the channel
 (`sent`) and reports to the transaction user (`told`).

 Here each machine is a function on its state; the classes of `Machines` do the same in place.
 */
module Transactions {
  import opened Bits
  import opened Wrappers

  datatype State = Init | Calling | Trying | Proceeding | Completed | Confirmed | Accepted | Terminated

  function Rank(s: State): nat {
    match s
    case Init => 0
    case Calling => 1
    case Trying => 1
    case Proceeding => 2
    case Completed => 3
    case Accepted => 3
    case Confirmed => 4
    case Terminated => 5
  }

  /** Timer values, and whether the transport is reliable. */
  datatype Config = Config(t1: nat, t2: nat, t4: nat, reliable: bool)

  /** What a slot may become: set where it was empty, or cleared.  A timer that is set is never written over. */
  predicate SlotKept(before: Option<nat>, after: Option<nat>) {
    before.Some? ==> after == before || after == None
  }

  // ---------------------------------------------------------------- INVITE client (ict.c)

  datatype Request = Invite | Ack

  /** `ack` is the stored ACK; `built` remembers that there ever was one. */
  datatype Client = Client(st: State, a: Option<nat>, b: Option<nat>, d: Option<nat>, m: Option<nat>,
                           ack: bool, built: bool, sent: seq<Request>, told: seq<nat>)

  const NEW_CLIENT := Client(Init, None, None, None, None, false, false, [], [])

  datatype ClientEvent = Send | Response(code: nat) | TimerA | TimerB | TimerD | TimerM

  function ClientTerminated(c: Client): Client {
    if c.st == Terminated then c else c.(st := Terminated, a := None, b := None, d := None, m := None, ack := false)
  }

  /** `ict_send_request`, for a transaction that has not been sent. */
  function ClientSent(c: Client, cfg: Config): Client {
    if c.st != Init then c
    else
      c.(st := Calling, a := if cfg.reliable then c.a else Some(cfg.t1), b := Some(64 * cfg.t1),
                                                           sent := c.sent + [Invite])
  }

  /** `ict_on_response`. */
  function ClientAnswered(c: Client, code: nat, cfg: Config): Client {
    if c.st == Calling || c.st == Proceeding then
      if code >= 300 then
        c.(st := Completed, ack := true, built := true, sent := c.sent + [Ack], told := c.told + [code],
           d := Some(64 * cfg.t1))
      else if code >= 200 then c.(st := Accepted, m := Some(64 * cfg.t1), told := c.told + [code])
      else if code >= 100 then c.(st := Proceeding, told := c.told + [code])
      else c.(st := Proceeding)
    else if c.st == Accepted && 200 <= code < 300 then c.(told := c.told + [code])
    else if c.st == Completed && code >= 300 && c.ack then c.(sent := c.sent + [Ack])
    else c
  }

  /** A timer fires only while its slot is set. */
  function ClientStep(c: Client, e: ClientEvent, cfg: Config): Client {
    match e
    case Send => ClientSent(c, cfg)
    case Response(code) => ClientAnswered(c, code, cfg)
    case TimerA => if c.a.Some? && c.st == Calling then c.(a := Some(2 * c.a.value), sent := c.sent + [Invite]) else c
    case TimerB => if c.b.Some? && c.st == Calling then ClientTerminated(c) else c
    case TimerD => if c.d.Some? && c.st == Completed then ClientTerminated(c) else c
    case TimerM => if c.m.Some? && c.st == Accepted then ClientTerminated(c) else c
  }

  /** Which slots can be set in which state. */
  predicate ClientSlots(c: Client) {
    c.st in {Init, Calling, Proceeding, Completed, Accepted, Terminated}
    && (c.st == Init ==> c.a.None? && c.b.None?)
    && (c.st != Completed ==> c.d.None? && !c.ack)
    && (c.st != Accepted ==> c.m.None?)
    && (c.st == Completed ==> c.ack)
    && (c.ack ==> c.built)
    && (c.st == Terminated ==> c.a.None? && c.b.None?)
    && (c.st == Init ==> c.sent == [] && c.told == [])
  }

  /** A step never goes back, never writes over a timer, and changes nothing once the transaction has ended. */
  lemma ClientStepKeeps(c: Client, e: ClientEvent, cfg: Config)
    requires ClientSlots(c)
    ensures var c' := ClientStep(c, e, cfg);
            ClientSlots(c') && Rank(c.st) <= Rank(c'.st) && (c.st == Terminated ==> c' == c)
            && SlotKept(c.b, c'.b) && SlotKept(c.d, c'.d) && SlotKept(c.m, c'.m)
            && (c.a.Some? ==> c'.a.None? || c'.a == c.a || (e == TimerA && c'.a.value == 2 * c.a.value))
            && c.sent <= c'.sent && c.told <= c'.told && (c.built ==> c'.built)
  {
  }

  // ---------------------------------------------------------------- INVITE server (ist.c)

  /** `completed` and `accepted` remember that the state was reached. */
  datatype Server = Server(st: State, g: Option<nat>, h: Option<nat>, i: Option<nat>, l: Option<nat>, last: Option<nat>,
                           sent: seq<nat>, acks: nat, completed: bool, accepted: bool)

  datatype ServerEvent = Reply(code: nat) | GotAck | GotInvite | TimerG | TimerH | TimerI | TimerL

  /** `belle_sip_ist_new`: in Proceeding, and 100 sent. */
  const NEW_SERVER := Server(Proceeding, None, None, None, None, Some(100), [100], 0, false, false)

  function ServerTerminated(s: Server): Server {
    if s.st == Terminated then s else s.(st := Terminated, g := None, h := None, i := None, l := None)
  }

  /** `ist_send_new_response`, and `last_response` when it returns 0. */
  function ServerReplied(s: Server, code: nat, cfg: Config): Server {
    if s.st == Proceeding then
      var s' := s.(sent := s.sent + [code], last := Some(code));
      if 200 <= code < 300 then s'.(st := Accepted, l := Some(64 * cfg.t1), accepted := true)
      else if code >= 300 then
        s'.(st := Completed, g := if cfg.reliable then s.g else Some(cfg.t1), h := Some(64 * cfg.t1), completed := true)
      else s'
    else if s.st == Accepted && 200 <= code < 300 then s.(last := Some(code))
    else s
  }

  /** `belle_sip_ist_process_ack`; in Accepted the ACK goes to the user (`acks`). */
  function ServerAcked(s: Server, cfg: Config): Server {
    if s.st == Completed then
      var s' := s.(g := None, st := Confirmed);
      if cfg.reliable then ServerTerminated(s') else s'.(i := Some(cfg.t4))
    else if s.st == Accepted then s.(acks := s.acks + 1)
    else s
  }

  function Resent(s: Server): seq<nat> {
    if s.last.Some? then s.sent + [s.last.value] else s.sent
  }

  function ServerStep(s: Server, e: ServerEvent, cfg: Config): Server {
    match e
    case Reply(code) => ServerReplied(s, code, cfg)
    case GotAck => ServerAcked(s, cfg)
    case GotInvite => if s.st == Proceeding || s.st == Completed then s.(sent := Resent(s)) else s
    case TimerG => if s.g.Some? && s.st == Completed then s.(sent := Resent(s), g := Some(Min(2 * s.g.value, cfg.t2)))
                   else s
    case TimerH => if s.h.Some? && s.st == Completed then ServerTerminated(s) else s
    case TimerI => if s.i.Some? then ServerTerminated(s) else s
    case TimerL => if s.l.Some? then ServerTerminated(s) else s
  }

  predicate ServerSlots(s: Server) {
    s.st in {Proceeding, Completed, Confirmed, Accepted, Terminated}
    && s.last.Some?
    && (s.st != Completed ==> s.g.None?)
    && (s.st != Completed && s.st != Confirmed ==> s.h.None?)
    && (s.st != Confirmed ==> s.i.None?)
    && (s.st != Accepted ==> s.l.None?)
    && !(s.completed && s.accepted)
    && (s.st == Proceeding ==> !s.completed && !s.accepted && s.last.value < 200)
    && (s.st == Completed || s.st == Confirmed ==> s.completed && s.last.value >= 300)
    && (s.st == Accepted ==> s.accepted)
  }

  lemma ServerStepKeeps(s: Server, e: ServerEvent, cfg: Config)
    requires ServerSlots(s)
    ensures var s' := ServerStep(s, e, cfg);
            ServerSlots(s') && Rank(s.st) <= Rank(s'.st)
            && (s.st == Terminated ==> s' == s)
            && SlotKept(s.h, s'.h) && SlotKept(s.i, s'.i) && SlotKept(s.l, s'.l)
            && (s.g.Some? ==> s'.g.None? || s'.g == s.g || (e == TimerG && s'.g.value == Min(2 * s.g.value, cfg.t2)))
            && s.sent <= s'.sent && (s.completed ==> s'.completed) && (s.accepted ==> s'.accepted)
  {
  }

  // ---------------------------------------------------------------- non-INVITE client (nict.c)

  /** A REGISTER that times out is not ended but reported to its channel. */
  datatype Caller = Caller(st: State, f: Option<nat>, e: Option<nat>, k: Option<nat>, register: bool, sent: nat,
                           told: seq<nat>)

  datatype CallerEvent = Start | Answer(code: nat) | TimerE | TimerF | TimerK

  function NewCaller(register: bool): Caller {
    Caller(Init, None, None, None, register, 0, [])
  }

  function CallerTerminated(c: Caller): Caller {
    if c.st == Terminated then c else c.(st := Terminated, f := None, e := None, k := None)
  }

  function CallerStarted(c: Caller, cfg: Config): Caller {
    if c.st != Init then c
    else c.(st := Trying, f := Some(64 * cfg.t1), e := if cfg.reliable then c.e else Some(cfg.t1), sent := c.sent + 1)
  }

  /** `nict_set_completed`. */
  function CallerCompleted(c: Caller, code: nat, cfg: Config): Caller {
    var c' := c.(st := Completed, told := c.told + [code]);
    if cfg.reliable then CallerTerminated(c') else c'.(k := Some(cfg.t4))
  }

  /** `nict_on_response`: in Proceeding a provisional response is not reported. */
  function CallerAnswered(c: Caller, code: nat, cfg: Config): Caller {
    if c.st == Trying then
      if code < 200 then c.(st := Proceeding, told := c.told + [code]) else CallerCompleted(c, code, cfg)
    else if c.st == Proceeding && code >= 200 then CallerCompleted(c, code, cfg)
    else c
  }

  function CallerStep(c: Caller, e: CallerEvent, cfg: Config): Caller {
    match e
    case Start => CallerStarted(c, cfg)
    case Answer(code) => CallerAnswered(c, code, cfg)
    case TimerE =>
      if c.e.None? then c
      else if c.st == Trying then c.(e := Some(Min(2 * c.e.value, cfg.t2)), sent := c.sent + 1)
      else if c.st == Proceeding then c.(e := Some(cfg.t2), sent := c.sent + 1)
      else c
    case TimerF =>
      if c.f.Some? && (c.st == Trying || c.st == Proceeding) && !c.register then CallerTerminated(c) else c
    case TimerK => if c.k.Some? then CallerTerminated(c) else c
  }

  predicate CallerSlots(c: Caller) {
    c.st in {Init, Trying, Proceeding, Completed, Terminated}
    && (c.st == Init ==> c.f.None? && c.e.None?)
    && (c.st != Completed ==> c.k.None?)
    && (c.st == Terminated ==> c.f.None? && c.e.None?)
  }

  /** In particular `timer_K` is empty whenever a final response completes the transaction. */
  lemma CallerStepKeeps(c: Caller, e: CallerEvent, cfg: Config)
    requires CallerSlots(c)
    ensures var c' := CallerStep(c, e, cfg);
            CallerSlots(c') && Rank(c.st) <= Rank(c'.st) && (c.st == Terminated ==> c' == c)
            && SlotKept(c.f, c'.f) && SlotKept(c.k, c'.k)
            && (c.e.Some? ==> c'.e.None? || c'.e == c.e || e == TimerE)
            && c.sent <= c'.sent && c.told <= c'.told
  {
  }

  // ---------------------------------------------------------------- non-INVITE server (nist.c)

  datatype Callee = Callee(st: State, j: Option<nat>, last: Option<nat>, sent: seq<nat>)

  datatype CalleeEvent = Respond(code: nat) | Again | TimerJ

  const NEW_CALLEE := Callee(Trying, None, None, [])

  function CalleeTerminated(c: Callee): Callee {
    if c.st == Terminated then c else c.(st := Terminated, j := None)
  }

  /** `nist_send_new_response`; it returns 0 and the response is stored in every state but Completed. */
  function CalleeResponded(c: Callee, code: nat, cfg: Config): Callee {
    if c.st == Completed then c
    else if c.st == Trying || c.st == Proceeding then
      var c' := c.(sent := c.sent + [code], last := Some(code));
      if code >= 200 then c'.(j := Some(if cfg.reliable then 0 else 64 * cfg.t1), st := Completed)
      else c'.(st := Proceeding)
    else c.(last := Some(code))
  }

  function CalleeStep(c: Callee, e: CalleeEvent, cfg: Config): Callee {
    match e
    case Respond(code) => CalleeResponded(c, code, cfg)
    case Again =>
      if (c.st == Proceeding || c.st == Completed) && c.last.Some? then c.(sent := c.sent + [c.last.value]) else c
    case TimerJ => if c.j.Some? then CalleeTerminated(c) else c
  }

  predicate CalleeSlots(c: Callee) {
    c.st in {Trying, Proceeding, Completed, Terminated}
    && (c.st != Completed ==> c.j.None?)
    && (c.st == Proceeding || c.st == Completed ==> c.last.Some?)
    && (c.st == Completed ==> c.last.value >= 200)
  }

  lemma CalleeStepKeeps(c: Callee, e: CalleeEvent, cfg: Config)
    requires CalleeSlots(c)
    ensures var c' := CalleeStep(c, e, cfg);
            CalleeSlots(c') && Rank(c.st) <= Rank(c'.st) && SlotKept(c.j, c'.j) && c.sent <= c'.sent
            && (c.st == Terminated ==> c'.st == Terminated && c'.sent == c.sent && c'.j == c.j)
  {
  }

  // ---------------------------------------------------------------- runs

  function ClientRun(c: Client, es: seq<ClientEvent>, cfg: Config): Client
    decreases |es|
  {
    if es == [] then c else ClientStep(ClientRun(c, es[..|es| - 1], cfg), es[|es| - 1], cfg)
  }

  lemma {:induction false} ClientRunKeeps(c: Client, es: seq<ClientEvent>, cfg: Config)
    requires ClientSlots(c)
    ensures var c' := ClientRun(c, es, cfg);
            ClientSlots(c') && Rank(c.st) <= Rank(c'.st) && c.sent <= c'.sent && (c.st == Terminated ==> c' == c)
    decreases |es|
  {
    if es != [] {
      ClientRunKeeps(c, es[..|es| - 1], cfg);
      ClientStepKeeps(ClientRun(c, es[..|es| - 1], cfg), es[|es| - 1], cfg);
    }
  }

  function ServerRun(s: Server, es: seq<ServerEvent>, cfg: Config): Server
    decreases |es|
  {
    if es == [] then s else ServerStep(ServerRun(s, es[..|es| - 1], cfg), es[|es| - 1], cfg)
  }

  lemma {:induction false} ServerRunKeeps(s: Server, es: seq<ServerEvent>, cfg: Config)
    requires ServerSlots(s)
    ensures var s' := ServerRun(s, es, cfg);
            ServerSlots(s') && Rank(s.st) <= Rank(s'.st) && s.sent <= s'.sent && (s.st == Terminated ==> s' == s)
    decreases |es|
  {
    if es != [] {
      ServerRunKeeps(s, es[..|es| - 1], cfg);
      ServerStepKeeps(ServerRun(s, es[..|es| - 1], cfg), es[|es| - 1], cfg);
    }
  }

  function CallerRun(c: Caller, es: seq<CallerEvent>, cfg: Config): Caller
    decreases |es|
  {
    if es == [] then c else CallerStep(CallerRun(c, es[..|es| - 1], cfg), es[|es| - 1], cfg)
  }

  lemma {:induction false} CallerRunKeeps(c: Caller, es: seq<CallerEvent>, cfg: Config)
    requires CallerSlots(c)
    ensures var c' := CallerRun(c, es, cfg);
            CallerSlots(c') && Rank(c.st) <= Rank(c'.st) && c.sent <= c'.sent && (c.st == Terminated ==> c' == c)
    decreases |es|
  {
    if es != [] {
      CallerRunKeeps(c, es[..|es| - 1], cfg);
      CallerStepKeeps(CallerRun(c, es[..|es| - 1], cfg), es[|es| - 1], cfg);
    }
  }

  function CalleeRun(c: Callee, es: seq<CalleeEvent>, cfg: Config): Callee
    decreases |es|
  {
    if es == [] then c else CalleeStep(CalleeRun(c, es[..|es| - 1], cfg), es[|es| - 1], cfg)
  }

  lemma {:induction false} CalleeRunKeeps(c: Callee, es: seq<CalleeEvent>, cfg: Config)
    requires CalleeSlots(c)
    ensures var c' := CalleeRun(c, es, cfg);
            CalleeSlots(c') && Rank(c.st) <= Rank(c'.st) && c.sent <= c'.sent
            && (c.st == Terminated ==> c'.st == Terminated && c'.sent == c.sent && c'.j == c.j)
    decreases |es|
  {
    if es != [] {
      CalleeRunKeeps(c, es[..|es| - 1], cfg);
      CalleeStepKeeps(CalleeRun(c, es[..|es| - 1], cfg), es[|es| - 1], cfg);
    }
  }
}
