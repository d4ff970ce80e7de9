/**
 What each transaction must report and send, from what happened to it alone. Of a history the theorems use the parts
 before and behind certain events, and count what is in them; no state is mentioned.
 */
module TransactionTraces {
  import opened Wrappers
  import opened Transactions

  // ---------------------------------------------------------------- parts of a history

  /** The events before the first that meets `p`; all of them, if none does. */
  function Before<E>(es: seq<E>, p: E -> bool): seq<E> {
    if es == [] || p(es[0]) then [] else [es[0]] + Before(es[1..], p)
  }

  /** The events from that one on. */
  function From<E>(es: seq<E>, p: E -> bool): (r: seq<E>)
    ensures r != [] ==> p(r[0])
  {
    if es == [] || p(es[0]) then es else From(es[1..], p)
  }

  /** The events behind it. */
  function Behind<E>(es: seq<E>, p: E -> bool): seq<E> {
    if From(es, p) == [] then [] else From(es, p)[1..]
  }

  /** How many of the events meet `p`. */
  function Count<E>(es: seq<E>, p: E -> bool): nat {
    if es == [] then 0 else (if p(es[0]) then 1 else 0) + Count(es[1..], p)
  }

  function Times<T>(x: T, n: nat): (s: seq<T>)
    ensures |s| == n && forall i :: 0 <= i < n ==> s[i] == x
  {
    seq(n, _ => x)
  }

  lemma Regroup<T>(a: seq<T>, b: seq<T>, c: seq<T>)
    ensures a + b + c == a + (b + c)
  {
  }

  lemma OneTime<T>(x: T, n: nat)
    ensures [x] + Times(x, n) == Times(x, n + 1)
  {
  }

  /** A history begins with the part before, and goes on with the other. */
  lemma {:induction false} Parted<E>(es: seq<E>, p: E -> bool)
    ensures Before(es, p) + From(es, p) == es
  {
    if es != [] && !p(es[0]) {
      Parted(es[1..], p);
      assert [es[0]] + Before(es[1..], p) + From(es[1..], p) == [es[0]] + (Before(es[1..], p) + From(es[1..], p));
    }
  }

  lemma OneBefore<E>(es: seq<E>, p: E -> bool)
    requires es != [] && !p(es[0])
    ensures Before(es, p) == [es[0]] + Before(es[1..], p) && From(es, p) == From(es[1..], p)
  {
  }

  // ---------------------------------------------------------------- INVITE client

  predicate IsSend(e: ClientEvent) {
    e.Send?
  }

  predicate IsResponse(e: ClientEvent) {
    e.Response?
  }

  predicate IsFinal(e: ClientEvent) {
    e.Response? && e.code >= 200
  }

  predicate IsRefusal(e: ClientEvent) {
    e.Response? && e.code >= 300
  }

  predicate IsTimerA(e: ClientEvent) {
    e.TimerA?
  }

  predicate IsTimerD(e: ClientEvent) {
    e.TimerD?
  }

  predicate IsTimerM(e: ClientEvent) {
    e.TimerM?
  }

  /** What ends the wait for an answer. */
  predicate IsOutcome(e: ClientEvent) {
    e.Response? || e.TimerB?
  }

  function CodeOf(e: ClientEvent, low: nat, high: nat): seq<nat> {
    if e.Response? && low <= e.code < high then [e.code] else []
  }

  /** The codes of the responses from `low` to `high - 1`. */
  function Codes(es: seq<ClientEvent>, low: nat, high: nat): seq<nat> {
    if es == [] then []
    else CodeOf(es[0], low, high) + Codes(es[1..], low, high)
  }

  /** Of the history behind the INVITE, everything from the first response on; nothing if timer B comes before it. */
  function Answering(es: seq<ClientEvent>): seq<ClientEvent> {
    var r := From(es, IsOutcome);
    if r != [] && r[0].Response? then r else []
  }

  /** Behind the final response `f`: until timer M ends the transaction, if that was a 2xx, and else timer D. */
  function Lingering(es: seq<ClientEvent>, f: nat): seq<ClientEvent> {
    if f < 300 then Before(es, IsTimerM) else Before(es, IsTimerD)
  }

  /** From the final response on the user hears that one, and if it is a 2xx, other 2xx ones that come. */
  function HeardLate(es: seq<ClientEvent>): seq<nat>
    requires es != [] ==> IsFinal(es[0])
  {
    if es == [] then []
    else [es[0].code] + if es[0].code < 300 then Codes(Lingering(es[1..], es[0].code), 200, 300) else []
  }

  /** Before, the user hears every provisional response. */
  function Heard(es: seq<ClientEvent>): seq<nat> {
    Codes(Before(es, IsFinal), 100, 200) + HeardLate(From(es, IsFinal))
  }

  /** A final response of 300 or above is acknowledged, and so is every response of 300 or above that comes then. */
  function Acknowledged(es: seq<ClientEvent>): seq<Request>
    requires es != [] ==> IsFinal(es[0])
  {
    if es == [] || es[0].code < 300 then [] else Times(Ack, 1 + Count(Lingering(es[1..], es[0].code), IsRefusal))
  }

  /** The INVITE is sent, and on an unreliable transport once more with each timer A until there is an outcome. */
  function Invited(es: seq<ClientEvent>, reliable: bool): seq<Request> {
    Times(Invite, 1 + if reliable then 0 else Count(Before(es, IsOutcome), IsTimerA))
  }

  /** From the final response on: its timer ended the transaction. */
  predicate Expired(es: seq<ClientEvent>)
    requires es != [] ==> IsFinal(es[0])
  {
    es != [] && if es[0].code < 300 then From(es[1..], IsTimerM) != [] else From(es[1..], IsTimerD) != []
  }

  /** Behind the INVITE: timer B came before any response, or the timer that follows the final one. */
  predicate CallOver(es: seq<ClientEvent>) {
    var r := From(es, IsOutcome);
    r != [] && (r[0].TimerB? || Expired(From(r, IsFinal)))
  }

  /** A run, first event first. */
  function ClientFrom(c: Client, es: seq<ClientEvent>, cfg: Config): Client
    decreases |es|
  {
    if es == [] then c else ClientFrom(ClientStep(c, es[0], cfg), es[1..], cfg)
  }

  lemma {:induction false} ClientRunFrom(c: Client, es: seq<ClientEvent>, fs: seq<ClientEvent>, cfg: Config)
    ensures ClientRun(c, es + fs, cfg) == ClientFrom(ClientRun(c, es, cfg), fs, cfg)
    decreases |fs|
  {
    if fs == [] {
      assert es + fs == es;
    } else {
      var more := es + [fs[0]];
      assert more[..|more| - 1] == es;
      ClientRunFrom(c, more, fs[1..], cfg);
      assert more + fs[1..] == es + fs;
    }
  }

  lemma {:induction false} ClientOver(c: Client, es: seq<ClientEvent>, cfg: Config)
    requires c.st == Terminated && ClientSlots(c)
    ensures ClientFrom(c, es, cfg) == c
    decreases |es|
  {
    if es != [] {
      ClientOver(c, es[1..], cfg);
    }
  }

  lemma {:induction false} ClientIdle(c: Client, es: seq<ClientEvent>, cfg: Config)
    requires c == NEW_CLIENT
    ensures ClientFrom(c, es, cfg) == ClientFrom(c, From(es, IsSend), cfg)
    decreases |es|
  {
    if es != [] && !IsSend(es[0]) {
      ClientIdle(c, es[1..], cfg);
    }
  }

  predicate Calls(c: Client, cfg: Config) {
    c.st == Calling && ClientSlots(c) && c.b.Some? && (c.a.Some? <==> !cfg.reliable)
  }

  /** Until there is an outcome. */
  lemma {:induction false} ClientCalls(c: Client, es: seq<ClientEvent>, cfg: Config) returns (d: Client)
    requires Calls(c, cfg)
    ensures Calls(d, cfg) && ClientFrom(c, es, cfg) == ClientFrom(d, From(es, IsOutcome), cfg) && d.told == c.told
    ensures d.sent == c.sent + Times(Invite, if cfg.reliable then 0 else Count(Before(es, IsOutcome), IsTimerA))
    decreases |es|
  {
    d := c;
    if es != [] && !IsOutcome(es[0]) {
      var s := ClientStep(c, es[0], cfg);
      d := ClientCalls(s, es[1..], cfg);
      assert Before(es, IsOutcome)[1..] == Before(es[1..], IsOutcome);
      if IsTimerA(es[0]) && !cfg.reliable {
        OneTime(Invite, Count(Before(es[1..], IsOutcome), IsTimerA));
        assert s.sent + Times(Invite, Count(Before(es[1..], IsOutcome), IsTimerA))
               == c.sent + ([Invite] + Times(Invite, Count(Before(es[1..], IsOutcome), IsTimerA)));
      }
    }
  }

  predicate Proceeds(c: Client) {
    c.st == Proceeding && ClientSlots(c)
  }

  lemma ProceedsOn(c: Client, e: ClientEvent, cfg: Config)
    requires Proceeds(c) && !IsFinal(e)
    ensures var s := ClientStep(c, e, cfg); Proceeds(s) && s.sent == c.sent && s.told == c.told + CodeOf(e, 100, 200)
  {
  }

  lemma CodesHead(e: ClientEvent, es: seq<ClientEvent>, low: nat, high: nat)
    ensures Codes([e] + es, low, high) == CodeOf(e, low, high) + Codes(es, low, high)
  {
    assert ([e] + es)[1..] == es;
  }

  lemma CodesOn(told: seq<nat>, es: seq<ClientEvent>, p: ClientEvent -> bool, low: nat, high: nat)
    requires es != [] && !p(es[0])
    ensures told + CodeOf(es[0], low, high) + Codes(Before(es[1..], p), low, high)
            == told + Codes(Before(es, p), low, high)
  {
    OneBefore(es, p);
    var b := Before(es[1..], p);
    CodesHead(es[0], b, low, high);
    Regroup(told, CodeOf(es[0], low, high), Codes(b, low, high));
  }

  /** Until there is a final response. */
  lemma {:induction false} ClientProceeds(c: Client, es: seq<ClientEvent>, cfg: Config) returns (d: Client)
    requires Proceeds(c)
    ensures Proceeds(d) && ClientFrom(c, es, cfg) == ClientFrom(d, From(es, IsFinal), cfg) && d.sent == c.sent
    ensures d.told == c.told + Codes(Before(es, IsFinal), 100, 200)
    decreases |es|
  {
    d := c;
    if es != [] && !IsFinal(es[0]) {
      ProceedsOn(c, es[0], cfg);
      d := ClientProceeds(ClientStep(c, es[0], cfg), es[1..], cfg);
      CodesOn(c.told, es, IsFinal, 100, 200);
    }
  }

  /** A first response counts as if one had come before. */
  lemma FirstResponse(c: Client, es: seq<ClientEvent>, cfg: Config)
    requires c.st == Calling && es != [] && es[0].Response?
    ensures ClientFrom(c, es, cfg) == ClientFrom(c.(st := Proceeding), es, cfg)
  {
  }

  predicate Accepts(c: Client) {
    c.st == Accepted && ClientSlots(c) && c.m.Some?
  }

  lemma AcceptsOn(c: Client, e: ClientEvent, cfg: Config)
    requires Accepts(c) && !IsTimerM(e)
    ensures var s := ClientStep(c, e, cfg); Accepts(s) && s.sent == c.sent && s.told == c.told + CodeOf(e, 200, 300)
  {
  }

  lemma {:induction false} ClientAccepts(c: Client, es: seq<ClientEvent>, cfg: Config)
    requires Accepts(c)
    ensures var d := ClientFrom(c, es, cfg); d.sent == c.sent
                                             && d.told == c.told + Codes(Before(es, IsTimerM), 200, 300)
    ensures ClientFrom(c, es, cfg).st == Terminated <==> From(es, IsTimerM) != []
    decreases |es|
  {
    if es != [] {
      var s := ClientStep(c, es[0], cfg);
      if IsTimerM(es[0]) {
        ClientOver(s, es[1..], cfg);
      } else {
        AcceptsOn(c, es[0], cfg);
        ClientAccepts(s, es[1..], cfg);
        CodesOn(c.told, es, IsTimerM, 200, 300);
      }
    }
  }

  predicate Completes(c: Client) {
    c.st == Completed && ClientSlots(c) && c.d.Some?
  }

  lemma {:induction false} ClientCompletes(c: Client, es: seq<ClientEvent>, cfg: Config)
    requires Completes(c)
    ensures var d := ClientFrom(c, es, cfg); d.told == c.told
                                             && d.sent == c.sent + Times(Ack, Count(Before(es, IsTimerD), IsRefusal))
    ensures ClientFrom(c, es, cfg).st == Terminated <==> From(es, IsTimerD) != []
    decreases |es|
  {
    if es != [] {
      var s := ClientStep(c, es[0], cfg);
      if IsTimerD(es[0]) {
        ClientOver(s, es[1..], cfg);
      } else {
        ClientCompletes(s, es[1..], cfg);
        assert Before(es, IsTimerD)[1..] == Before(es[1..], IsTimerD);
        if IsRefusal(es[0]) {
          OneTime(Ack, Count(Before(es[1..], IsTimerD), IsRefusal));
        }
      }
    }
  }

  lemma ClientWelcome(c: Client, es: seq<ClientEvent>, cfg: Config)
    requires Proceeds(c) && es != [] && IsFinal(es[0]) && es[0].code < 300
    ensures var d := ClientFrom(c, es, cfg);
            d.told == c.told + HeardLate(es) && d.sent == c.sent
              && (d.st == Terminated <==> From(es[1..], IsTimerM) != [])
  {
    var s, k := ClientStep(c, es[0], cfg), Codes(Before(es[1..], IsTimerM), 200, 300);
    ClientAccepts(s, es[1..], cfg);
    WelcomeIs(es, k);
    Regroup(c.told, [es[0].code], k);
  }

  lemma WelcomeIs(es: seq<ClientEvent>, k: seq<nat>)
    requires es != [] && IsFinal(es[0]) && es[0].code < 300 && k == Codes(Before(es[1..], IsTimerM), 200, 300)
    ensures HeardLate(es) == [es[0].code] + k
  {
  }

  lemma ClientRefused(c: Client, es: seq<ClientEvent>, cfg: Config)
    requires Proceeds(c) && es != [] && IsFinal(es[0]) && es[0].code >= 300
    ensures var d := ClientFrom(c, es, cfg);
            d.told == c.told + [es[0].code] && d.sent == c.sent + Acknowledged(es)
            && (d.st == Terminated <==> From(es[1..], IsTimerD) != [])
  {
    ClientCompletes(ClientStep(c, es[0], cfg), es[1..], cfg);
    OneTime(Ack, Count(Before(es[1..], IsTimerD), IsRefusal));
  }

  lemma ClientFinal(c: Client, es: seq<ClientEvent>, cfg: Config)
    requires Proceeds(c) && (es != [] ==> IsFinal(es[0]))
    ensures var d := ClientFrom(c, es, cfg); d.told == c.told + HeardLate(es) && d.sent == c.sent + Acknowledged(es)
    ensures ClientFrom(c, es, cfg).st == Terminated <==> Expired(es)
  {
    if es != [] {
      if es[0].code < 300 {
        ClientWelcome(c, es, cfg);
      } else {
        ClientRefused(c, es, cfg);
      }
    }
  }

  /** What follows once a response has come. */
  lemma ClientAnswers(c: Client, es: seq<ClientEvent>, cfg: Config)
    requires Proceeds(c)
    ensures var d := ClientFrom(c, es, cfg); d.told == c.told + Heard(es)
                                             && d.sent == c.sent + Acknowledged(From(es, IsFinal))
    ensures ClientFrom(c, es, cfg).st == Terminated <==> Expired(From(es, IsFinal))
  {
    var p := ClientProceeds(c, es, cfg);
    var r := From(es, IsFinal);
    ClientFinal(p, r, cfg);
    HeardIs(es, r, c.told);
  }

  lemma HeardIs(es: seq<ClientEvent>, r: seq<ClientEvent>, told: seq<nat>)
    requires r == From(es, IsFinal)
    ensures told + Codes(Before(es, IsFinal), 100, 200) + HeardLate(r) == told + Heard(es)
  {
    Regroup(told, Codes(Before(es, IsFinal), 100, 200), HeardLate(r));
  }

  lemma ClientOutcome(c: Client, es: seq<ClientEvent>, cfg: Config)
    requires Calls(c, cfg) && (es != [] ==> IsOutcome(es[0]))
    ensures var d, r := ClientFrom(c, es, cfg), if es != [] && es[0].Response? then es else [];
            d.told == c.told + Heard(r) && d.sent == c.sent + Acknowledged(From(r, IsFinal))
    ensures ClientFrom(c, es, cfg).st == Terminated <==> es != [] && (es[0].TimerB? || Expired(From(es, IsFinal)))
  {
    if es != [] {
      if es[0].Response? {
        FirstResponse(c, es, cfg);
        ClientAnswers(c.(st := Proceeding), es, cfg);
      } else {
        ClientOver(ClientStep(c, es[0], cfg), es[1..], cfg);
      }
    }
  }

  lemma ClientSentOn(c: Client, es: seq<ClientEvent>, cfg: Config)
    requires Calls(c, cfg) && c.told == [] && c.sent == [Invite]
    ensures var d := ClientFrom(c, es, cfg);
            d.told == Heard(Answering(es)) && d.sent
              == Invited(es, cfg.reliable) + Acknowledged(From(Answering(es), IsFinal))
    ensures ClientFrom(c, es, cfg).st == Terminated <==> CallOver(es)
  {
    var d := ClientCalls(c, es, cfg);
    OneTime(Invite, if cfg.reliable then 0 else Count(Before(es, IsOutcome), IsTimerA));
    ClientOutcome(d, From(es, IsOutcome), cfg);
  }

  /**
   What the INVITE client reports and sends, and when it ends, over any run; `rest` is what happens once the INVITE
   was sent.
   */
  lemma {:induction false} ClientTrace(es: seq<ClientEvent>, cfg: Config)
    ensures var c, rest := ClientRun(NEW_CLIENT, es, cfg), Behind(es, IsSend);
            if From(es, IsSend) == [] then c.told == [] && c.sent == []
            else c.told == Heard(Answering(rest))
                 && c.sent == Invited(rest, cfg.reliable) + Acknowledged(From(Answering(rest), IsFinal))
    ensures ClientRun(NEW_CLIENT, es, cfg).st == Terminated <==> CallOver(Behind(es, IsSend))
  {
    ClientRunFrom(NEW_CLIENT, [], es, cfg);
    assert [] + es == es;
    ClientIdle(NEW_CLIENT, es, cfg);
    var r := From(es, IsSend);
    if r != [] {
      ClientSentOn(ClientStep(NEW_CLIENT, r[0], cfg), r[1..], cfg);
    }
  }

  // ---------------------------------------------------------------- non-INVITE client

  predicate IsStart(e: CallerEvent) {
    e.Start?
  }

  predicate IsAnswer(e: CallerEvent) {
    e.Answer?
  }

  predicate IsFinalAnswer(e: CallerEvent) {
    e.Answer? && e.code >= 200
  }

  predicate IsTimerE(e: CallerEvent) {
    e.TimerE?
  }

  predicate IsTimerF(e: CallerEvent) {
    e.TimerF?
  }

  /** What happens until timer F ends the transaction; it does not end a REGISTER. */
  function Lasting(es: seq<CallerEvent>, register: bool): seq<CallerEvent> {
    if register then es else Before(es, IsTimerF)
  }

  /** The user hears the final response that comes first. */
  function HeardFinal(es: seq<CallerEvent>): seq<nat> {
    var r := From(es, IsFinalAnswer);
    if r == [] then [] else [r[0].code]
  }

  /** And before it the provisional response that comes first. */
  function HeardOnce(es: seq<CallerEvent>): seq<nat> {
    var r := From(es, IsAnswer);
    if r == [] then [] else (if r[0].code < 200 then [r[0].code] else []) + HeardFinal(r)
  }

  /** On an unreliable transport the request is sent again with each timer E until there is a final response. */
  function Requested(es: seq<CallerEvent>, reliable: bool): nat {
    1 + if reliable then 0 else Count(Before(es, IsFinalAnswer), IsTimerE)
  }

  predicate IsTimerK(e: CallerEvent) {
    e.TimerK?
  }

  /**
   What ends a non-INVITE client: its final response, on an unreliable transport timer K behind that, or, but for a
   REGISTER, timer F.
   */
  predicate RequestOver(es: seq<CallerEvent>, register: bool, reliable: bool) {
    if From(Lasting(es, register), IsFinalAnswer) == [] then !register && From(es, IsTimerF) != []
    else reliable || From(Behind(es, IsFinalAnswer), IsTimerK) != []
  }

  function CallerFrom(c: Caller, es: seq<CallerEvent>, cfg: Config): Caller
    decreases |es|
  {
    if es == [] then c else CallerFrom(CallerStep(c, es[0], cfg), es[1..], cfg)
  }

  lemma {:induction false} CallerRunFrom(c: Caller, es: seq<CallerEvent>, fs: seq<CallerEvent>, cfg: Config)
    ensures CallerRun(c, es + fs, cfg) == CallerFrom(CallerRun(c, es, cfg), fs, cfg)
    decreases |fs|
  {
    if fs == [] {
      assert es + fs == es;
    } else {
      var more := es + [fs[0]];
      assert more[..|more| - 1] == es;
      CallerRunFrom(c, more, fs[1..], cfg);
      assert more + fs[1..] == es + fs;
    }
  }

  /** Nothing more is reported or sent. */
  lemma {:induction false} CallerOver(c: Caller, es: seq<CallerEvent>, cfg: Config)
    requires (c.st == Terminated || c.st == Completed) && CallerSlots(c)
    ensures var d := CallerFrom(c, es, cfg); d.told == c.told && d.sent == c.sent
                                             && (c.st == Terminated ==> d.st == Terminated)
    ensures c.st == Completed && c.k.Some? ==> (CallerFrom(c, es, cfg).st == Terminated <==> From(es, IsTimerK) != [])
    decreases |es|
  {
    if es != [] {
      CallerOver(CallerStep(c, es[0], cfg), es[1..], cfg);
    }
  }

  lemma {:induction false} CallerIdle(c: Caller, es: seq<CallerEvent>, cfg: Config)
    requires c == NewCaller(c.register)
    ensures CallerFrom(c, es, cfg) == CallerFrom(c, From(es, IsStart), cfg)
    decreases |es|
  {
    if es != [] && !IsStart(es[0]) {
      CallerIdle(c, es[1..], cfg);
    }
  }

  predicate Tries(c: Caller, cfg: Config) {
    (c.st == Trying || c.st == Proceeding) && CallerSlots(c) && c.f.Some? && (c.e.Some? <==> !cfg.reliable)
  }

  /** The step ends the transaction. */
  predicate Ends(c: Caller, e: CallerEvent) {
    IsFinalAnswer(e) || (IsTimerF(e) && !c.register)
  }

  lemma CallerEnds(c: Caller, es: seq<CallerEvent>, cfg: Config)
    requires Tries(c, cfg) && es != [] && Ends(c, es[0])
    ensures var d := CallerFrom(c, es, cfg);
            d.sent == c.sent && d.told == c.told + if IsFinalAnswer(es[0]) then [es[0].code] else []
    ensures CallerFrom(c, es, cfg).st == Terminated
            <==> IsTimerF(es[0]) || cfg.reliable || From(es[1..], IsTimerK) != []
  {
    CallerOver(CallerStep(c, es[0], cfg), es[1..], cfg);
  }

  /** Once the first answer was a provisional one, only the final one is heard. */
  lemma {:induction false} CallerProceeds(c: Caller, es: seq<CallerEvent>, cfg: Config)
    requires Tries(c, cfg) && c.st == Proceeding
    ensures CallerFrom(c, es, cfg).told == c.told + HeardFinal(Lasting(es, c.register))
    decreases |es|
  {
    if es != [] {
      if Ends(c, es[0]) {
        CallerEnds(c, es, cfg);
      } else {
        CallerProceeds(CallerStep(c, es[0], cfg), es[1..], cfg);
        LastingOn(es, c.register);
      }
    }
  }

  lemma LastingOn(es: seq<CallerEvent>, register: bool)
    requires es != [] && (register || !IsTimerF(es[0]))
    ensures Lasting(es, register) != [] && Lasting(es, register)[0] == es[0]
            && Lasting(es, register)[1..] == Lasting(es[1..], register)
  {
  }

  lemma {:induction false} CallerHears(c: Caller, es: seq<CallerEvent>, cfg: Config)
    requires Tries(c, cfg) && c.st == Trying
    ensures CallerFrom(c, es, cfg).told == c.told + HeardOnce(Lasting(es, c.register))
    decreases |es|
  {
    if es != [] {
      if Ends(c, es[0]) {
        CallerEnds(c, es, cfg);
      } else {
        var s := CallerStep(c, es[0], cfg);
        LastingOn(es, c.register);
        if es[0].Answer? {
          CallerProceeds(s, es[1..], cfg);
          HeardFirst(es, c.register);
          Regroup(c.told, [es[0].code], HeardFinal(Lasting(es[1..], c.register)));
        } else {
          CallerHears(s, es[1..], cfg);
        }
      }
    }
  }

  lemma HeardFirst(es: seq<CallerEvent>, register: bool)
    requires es != [] && IsAnswer(es[0]) && es[0].code < 200
    ensures HeardOnce(Lasting(es, register)) == [es[0].code] + HeardFinal(Lasting(es[1..], register))
  {
    LastingOn(es, register);
  }

  lemma {:induction false} CallerSends(c: Caller, es: seq<CallerEvent>, cfg: Config)
    requires Tries(c, cfg)
    ensures CallerFrom(c, es, cfg).sent + 1 == c.sent + Requested(Lasting(es, c.register), cfg.reliable)
    decreases |es|
  {
    if es != [] {
      if Ends(c, es[0]) {
        CallerEnds(c, es, cfg);
      } else {
        CallerSends(CallerStep(c, es[0], cfg), es[1..], cfg);
        LastingOn(es, c.register);
      }
    }
  }

  lemma {:induction false} CallerOvers(c: Caller, es: seq<CallerEvent>, cfg: Config)
    requires Tries(c, cfg)
    ensures CallerFrom(c, es, cfg).st == Terminated <==> RequestOver(es, c.register, cfg.reliable)
    decreases |es|
  {
    if es != [] {
      if Ends(c, es[0]) {
        CallerEnds(c, es, cfg);
      } else {
        CallerOvers(CallerStep(c, es[0], cfg), es[1..], cfg);
        LastingOn(es, c.register);
      }
    }
  }

  /** What the non-INVITE client reports, how often it sends its request, and when it ends, over any run. */
  lemma {:induction false} CallerTrace(register: bool, es: seq<CallerEvent>, cfg: Config)
    ensures var c, rest := CallerRun(NewCaller(register), es, cfg), Lasting(Behind(es, IsStart), register);
            if From(es, IsStart) == [] then c.told == [] && c.sent == 0
            else c.told == HeardOnce(rest) && c.sent == Requested(rest, cfg.reliable)
    ensures CallerRun(NewCaller(register), es, cfg).st == Terminated
            <==> From(es, IsStart) != [] && RequestOver(Behind(es, IsStart), register, cfg.reliable)
  {
    CallerRunFrom(NewCaller(register), [], es, cfg);
    assert [] + es == es;
    CallerIdle(NewCaller(register), es, cfg);
    var r := From(es, IsStart);
    if r != [] {
      var s := CallerStep(NewCaller(register), r[0], cfg);
      CallerHears(s, r[1..], cfg);
      CallerSends(s, r[1..], cfg);
      CallerOvers(s, r[1..], cfg);
    }
  }

  // ---------------------------------------------------------------- non-INVITE server

  predicate IsRespondFinal(e: CalleeEvent) {
    e.Respond? && e.code >= 200
  }

  predicate IsAgain(e: CalleeEvent) {
    e.Again?
  }

  predicate IsTimerJ(e: CalleeEvent) {
    e.TimerJ?
  }

  /** Every response is sent, and a request that comes again is answered by the last one, if there was one. */
  function Responded(es: seq<CalleeEvent>, last: Option<nat>): seq<nat> {
    if es == [] then []
    else match es[0]
      case Respond(code) => [code] + Responded(es[1..], Some(code))
      case Again => (if last.Some? then [last.value] else []) + Responded(es[1..], last)
      case TimerJ => Responded(es[1..], last)
  }

  /** So is the first final one, and it answers every request that comes again before timer J. */
  function RespondedLast(es: seq<CalleeEvent>): seq<nat>
    requires es != [] ==> IsRespondFinal(es[0])
  {
    if es == [] then [] else Times(es[0].code, 1 + Count(Before(es[1..], IsTimerJ), IsAgain))
  }

  /** Timer J came behind the final response. */
  predicate Answered(es: seq<CalleeEvent>)
    requires es != [] ==> IsRespondFinal(es[0])
  {
    es != [] && From(es[1..], IsTimerJ) != []
  }

  function CalleeFrom(c: Callee, es: seq<CalleeEvent>, cfg: Config): Callee
    decreases |es|
  {
    if es == [] then c else CalleeFrom(CalleeStep(c, es[0], cfg), es[1..], cfg)
  }

  lemma {:induction false} CalleeRunFrom(c: Callee, es: seq<CalleeEvent>, fs: seq<CalleeEvent>, cfg: Config)
    ensures CalleeRun(c, es + fs, cfg) == CalleeFrom(CalleeRun(c, es, cfg), fs, cfg)
    decreases |fs|
  {
    if fs == [] {
      assert es + fs == es;
    } else {
      var more := es + [fs[0]];
      assert more[..|more| - 1] == es;
      CalleeRunFrom(c, more, fs[1..], cfg);
      assert more + fs[1..] == es + fs;
    }
  }

  lemma {:induction false} CalleeOver(c: Callee, es: seq<CalleeEvent>, cfg: Config)
    requires c.st == Terminated && CalleeSlots(c)
    ensures var d := CalleeFrom(c, es, cfg); d.sent == c.sent && d.st == Terminated
    decreases |es|
  {
    if es != [] {
      CalleeOver(CalleeStep(c, es[0], cfg), es[1..], cfg);
    }
  }

  predicate Works(c: Callee) {
    CalleeSlots(c) && (c.st == Trying ==> c.last == None) && (c.st == Trying || c.st == Proceeding)
  }

  lemma {:induction false} CalleeWorks(c: Callee, es: seq<CalleeEvent>, cfg: Config) returns (d: Callee)
    requires Works(c)
    ensures Works(d) && CalleeFrom(c, es, cfg) == CalleeFrom(d, From(es, IsRespondFinal), cfg)
    ensures d.sent == c.sent + Responded(Before(es, IsRespondFinal), c.last)
    decreases |es|
  {
    d := c;
    if es != [] && !IsRespondFinal(es[0]) {
      var s := CalleeStep(c, es[0], cfg);
      d := CalleeWorks(s, es[1..], cfg);
      assert Before(es, IsRespondFinal)[1..] == Before(es[1..], IsRespondFinal);
      assert s.sent == c.sent + Responded([es[0]], c.last);
    }
  }

  lemma {:induction false} CalleeCompletes(c: Callee, es: seq<CalleeEvent>, cfg: Config, f: nat)
    requires CalleeSlots(c) && c.st == Completed && c.last == Some(f) && c.j.Some?
    ensures CalleeFrom(c, es, cfg).sent == c.sent + Times(f, Count(Before(es, IsTimerJ), IsAgain))
    ensures CalleeFrom(c, es, cfg).st == Terminated <==> From(es, IsTimerJ) != []
    decreases |es|
  {
    if es != [] {
      var s := CalleeStep(c, es[0], cfg);
      if IsTimerJ(es[0]) {
        CalleeOver(s, es[1..], cfg);
      } else {
        CalleeCompletes(s, es[1..], cfg, f);
        assert Before(es, IsTimerJ)[1..] == Before(es[1..], IsTimerJ);
        if IsAgain(es[0]) {
          OneTime(f, Count(Before(es[1..], IsTimerJ), IsAgain));
        }
      }
    }
  }

  lemma CalleeFinal(c: Callee, es: seq<CalleeEvent>, cfg: Config)
    requires Works(c) && (es != [] ==> IsRespondFinal(es[0]))
    ensures CalleeFrom(c, es, cfg).sent == c.sent + RespondedLast(es)
    ensures CalleeFrom(c, es, cfg).st == Terminated <==> Answered(es)
  {
    if es != [] {
      CalleeCompletes(CalleeStep(c, es[0], cfg), es[1..], cfg, es[0].code);
      OneTime(es[0].code, Count(Before(es[1..], IsTimerJ), IsAgain));
    }
  }

  /** What the non-INVITE server sends, and when it ends, over any run. */
  lemma {:induction false} CalleeTrace(es: seq<CalleeEvent>, cfg: Config)
    ensures CalleeRun(NEW_CALLEE, es, cfg).sent
            == Responded(Before(es, IsRespondFinal), None) + RespondedLast(From(es, IsRespondFinal))
    ensures CalleeRun(NEW_CALLEE, es, cfg).st == Terminated <==> Answered(From(es, IsRespondFinal))
  {
    CalleeRunFrom(NEW_CALLEE, [], es, cfg);
    assert [] + es == es;
    var d := CalleeWorks(NEW_CALLEE, es, cfg);
    CalleeFinal(d, From(es, IsRespondFinal), cfg);
  }

  // ---------------------------------------------------------------- INVITE server

  predicate IsReplyFinal(e: ServerEvent) {
    e.Reply? && e.code >= 200
  }

  predicate IsInvite(e: ServerEvent) {
    e.GotInvite?
  }

  predicate IsAck(e: ServerEvent) {
    e.GotAck?
  }

  predicate IsTimerL(e: ServerEvent) {
    e.TimerL?
  }

  /** What makes an INVITE server send its refusal again. */
  predicate IsReminder(e: ServerEvent) {
    e.GotInvite? || e.TimerG?
  }

  /** What ends that. */
  predicate IsSettled(e: ServerEvent) {
    e.GotAck? || e.TimerH?
  }

  /** Every response is sent, and an INVITE that comes again is answered by the last one. */
  function Replied(es: seq<ServerEvent>, last: nat): seq<nat> {
    if es == [] then []
    else match es[0]
      case Reply(code) => [code] + Replied(es[1..], code)
      case GotInvite => [last] + Replied(es[1..], last)
      case _ => Replied(es[1..], last)
  }

  /**
   So is the first final one. A 2xx is not sent again here. A refusal is, until an ACK or timer H: for an INVITE that
   comes again, and on an unreliable transport with timer G.
   */
  function RepliedLast(es: seq<ServerEvent>, reliable: bool): seq<nat>
    requires es != [] ==> IsReplyFinal(es[0])
  {
    if es == [] then []
    else if es[0].code < 300 then [es[0].code]
    else
      var open := Before(es[1..], IsSettled);
      Times(es[0].code, 1 + if reliable then Count(open, IsInvite) else Count(open, IsReminder))
  }

  /** The ACKs that reach the user: those behind a 2xx, until timer L. */
  function AcksHeard(es: seq<ServerEvent>): nat
    requires es != [] ==> IsReplyFinal(es[0])
  {
    if es == [] || es[0].code >= 300 then 0 else Count(Before(es[1..], IsTimerL), IsAck)
  }

  predicate IsTimerI(e: ServerEvent) {
    e.TimerI?
  }

  /**
   What ends an INVITE server: timer L behind a 2xx; behind a refusal timer H, if no ACK comes before it, or else the
   ACK, and on an unreliable transport timer I behind it.
   */
  predicate Settled(es: seq<ServerEvent>, reliable: bool)
    requires es != [] ==> IsReplyFinal(es[0])
  {
    es != []
    && if es[0].code < 300 then From(es[1..], IsTimerL) != []
       else RefusalOver(From(es[1..], IsSettled), reliable)
  }

  predicate RefusalOver(es: seq<ServerEvent>, reliable: bool) {
    es != [] && (es[0].TimerH? || reliable || From(es[1..], IsTimerI) != [])
  }

  function ServerFrom(s: Server, es: seq<ServerEvent>, cfg: Config): Server
    decreases |es|
  {
    if es == [] then s else ServerFrom(ServerStep(s, es[0], cfg), es[1..], cfg)
  }

  lemma {:induction false} ServerRunFrom(s: Server, es: seq<ServerEvent>, fs: seq<ServerEvent>, cfg: Config)
    ensures ServerRun(s, es + fs, cfg) == ServerFrom(ServerRun(s, es, cfg), fs, cfg)
    decreases |fs|
  {
    if fs == [] {
      assert es + fs == es;
    } else {
      var more := es + [fs[0]];
      assert more[..|more| - 1] == es;
      ServerRunFrom(s, more, fs[1..], cfg);
      assert more + fs[1..] == es + fs;
    }
  }

  /** Once a refusal is settled nothing is sent, and no ACK reaches the user. */
  lemma {:induction false} ServerOver(s: Server, es: seq<ServerEvent>, cfg: Config)
    requires (s.st == Terminated || s.st == Confirmed) && ServerSlots(s)
    ensures var t := ServerFrom(s, es, cfg); t.sent == s.sent && t.acks == s.acks
                                             && (s.st == Terminated ==> t.st == Terminated)
    ensures s.st == Confirmed && s.i.Some? ==> (ServerFrom(s, es, cfg).st == Terminated <==> From(es, IsTimerI) != [])
    decreases |es|
  {
    if es != [] {
      ServerOver(ServerStep(s, es[0], cfg), es[1..], cfg);
    }
  }

  predicate Serves(s: Server) {
    s.st == Proceeding && ServerSlots(s)
  }

  /** One event on: what is sent for it, and the last response then. */
  lemma ServesOn(s: Server, e: ServerEvent, cfg: Config)
    requires Serves(s) && !IsReplyFinal(e)
    ensures var u := ServerStep(s, e, cfg);
            Serves(u) && u.acks == s.acks
            && match e
               case Reply(code) => u.sent == s.sent + [code] && u.last == Some(code)
               case GotInvite => u.sent == s.sent + [s.last.value] && u.last == s.last
               case _ => u.sent == s.sent && u.last == s.last
  {
  }

  lemma {:induction false} ServerServes(s: Server, es: seq<ServerEvent>, cfg: Config) returns (t: Server)
    requires Serves(s)
    ensures Serves(t) && ServerFrom(s, es, cfg) == ServerFrom(t, From(es, IsReplyFinal), cfg) && t.acks == s.acks
    ensures t.sent == s.sent + Replied(Before(es, IsReplyFinal), s.last.value)
    decreases |es|
  {
    t := s;
    if es != [] && !IsReplyFinal(es[0]) {
      ServesOn(s, es[0], cfg);
      var u := ServerStep(s, es[0], cfg);
      t := ServerServes(u, es[1..], cfg);
      OneBefore(es, IsReplyFinal);
      assert u.sent + Replied(Before(es[1..], IsReplyFinal), u.last.value)
        == s.sent + Replied(Before(es, IsReplyFinal), s.last.value);
    }
  }

  lemma {:induction false} ServerAccepts(s: Server, es: seq<ServerEvent>, cfg: Config)
    requires ServerSlots(s) && s.st == Accepted && s.l.Some?
    ensures var t := ServerFrom(s, es, cfg); t.sent == s.sent && t.acks == s.acks + Count(Before(es, IsTimerL), IsAck)
    ensures ServerFrom(s, es, cfg).st == Terminated <==> From(es, IsTimerL) != []
    decreases |es|
  {
    if es != [] {
      var u := ServerStep(s, es[0], cfg);
      if IsTimerL(es[0]) {
        ServerOver(u, es[1..], cfg);
      } else {
        ServerAccepts(u, es[1..], cfg);
      }
    }
  }

  predicate Refuses(s: Server, cfg: Config, f: nat) {
    ServerSlots(s) && s.st == Completed && s.last == Some(f) && s.h.Some? && (s.g.Some? <==> !cfg.reliable)
  }

  function Reminders(es: seq<ServerEvent>, reliable: bool): nat {
    if reliable then Count(es, IsInvite) else Count(es, IsReminder)
  }

  lemma {:induction false} ServerRefuses(s: Server, es: seq<ServerEvent>, cfg: Config, f: nat)
    requires Refuses(s, cfg, f)
    ensures var t := ServerFrom(s, es, cfg);
            t.acks == s.acks && t.sent == s.sent + Times(f, Reminders(Before(es, IsSettled), cfg.reliable))
    ensures ServerFrom(s, es, cfg).st == Terminated <==> RefusalOver(From(es, IsSettled), cfg.reliable)
    decreases |es|
  {
    if es != [] {
      var u := ServerStep(s, es[0], cfg);
      if IsSettled(es[0]) {
        ServerOver(u, es[1..], cfg);
      } else {
        ServerRefuses(u, es[1..], cfg, f);
        assert Before(es, IsSettled)[1..] == Before(es[1..], IsSettled);
        OneTime(f, Reminders(Before(es[1..], IsSettled), cfg.reliable));
      }
    }
  }

  lemma ServerFinal(s: Server, es: seq<ServerEvent>, cfg: Config)
    requires Serves(s) && (es != [] ==> IsReplyFinal(es[0]))
    ensures var t := ServerFrom(s, es, cfg);
            t.sent == s.sent + RepliedLast(es, cfg.reliable) && t.acks == s.acks + AcksHeard(es)
    ensures ServerFrom(s, es, cfg).st == Terminated <==> Settled(es, cfg.reliable)
  {
    if es != [] {
      var u := ServerStep(s, es[0], cfg);
      if es[0].code < 300 {
        ServerAccepts(u, es[1..], cfg);
      } else {
        ServerRefuses(u, es[1..], cfg, es[0].code);
        OneTime(es[0].code, Reminders(Before(es[1..], IsSettled), cfg.reliable));
      }
    }
  }

  /** What the INVITE server sends, how many ACKs its user hears of, and when it ends, over any run. */
  lemma {:induction false} ServerTrace(es: seq<ServerEvent>, cfg: Config)
    ensures var s, r := ServerRun(NEW_SERVER, es, cfg), From(es, IsReplyFinal);
            s.sent == [100] + Replied(Before(es, IsReplyFinal), 100) + RepliedLast(r, cfg.reliable)
              && s.acks == AcksHeard(r)
            && (s.st == Terminated <==> Settled(r, cfg.reliable))
  {
    ServerRunFrom(NEW_SERVER, [], es, cfg);
    assert [] + es == es;
    var t := ServerServes(NEW_SERVER, es, cfg);
    ServerFinal(t, From(es, IsReplyFinal), cfg);
  }
}
