/**
 What each transaction says over a whole run: the responses it reports, the messages it sends, and the values its
 timers are given.
 */
module TransactionRuns {
  import opened Bits
  import opened Wrappers
  import opened Transactions

  predicate Provisional(code: nat) {
    100 <= code < 200
  }

  predicate Success(code: nat) {
    200 <= code < 300
  }

  /** `t`, doubled `k` times. */
  function Doubled(t: nat, k: nat): nat {
    if k == 0 then t else 2 * Doubled(t, k - 1)
  }

  lemma {:induction false} DoubledIs(t: nat, k: nat)
    ensures Doubled(t, k) == Pow2(k) * t
  {
    if k > 0 {
      DoubledIs(t, k - 1);
      Distribute(Pow2(k - 1), Pow2(k - 1), t);
    }
  }

  /** A slot that is set holds the value `v`. */
  predicate Set(slot: Option<nat>, v: nat) {
    slot.Some? ==> slot.value == v
  }

  // ---------------------------------------------------------------- INVITE client

  /** Provisional responses, then nothing, or one other final response, or 2xx responses only. */
  predicate OneOutcome(told: seq<nat>) {
    (forall i :: 0 <= i < |told| ==> told[i] >= 100)
    && forall i, j :: 0 <= i < j < |told| ==> Provisional(told[i]) || (Success(told[i]) && Success(told[j]))
  }

  function Invites(sent: seq<Request>): nat {
    if sent == [] then 0 else Invites(sent[..|sent| - 1]) + if sent[|sent| - 1] == Invite then 1 else 0
  }

  lemma OneMore(sent: seq<Request>, r: Request)
    ensures Invites(sent + [r]) == Invites(sent) + if r == Invite then 1 else 0
  {
    assert (sent + [r])[..|sent|] == sent;
  }

  predicate Unanswered(c: Client) {
    forall i :: 0 <= i < |c.told| ==> Provisional(c.told[i])
  }

  /** The reports agree with the state. */
  predicate ClientTells(c: Client) {
    OneOutcome(c.told)
    && (c.st in {Init, Calling, Proceeding} ==> Unanswered(c))
    && (c.st == Completed ==> c.told != [] && c.told[|c.told| - 1] >= 300)
    && (c.st == Accepted ==> c.told != [] && Success(c.told[|c.told| - 1]))
  }

  /** Every INVITE comes before every ACK, and an ACK means a reported response of 300 or above. */
  predicate ClientSends(c: Client) {
    (forall i, j :: 0 <= i < j < |c.sent| && c.sent[i] == Ack ==> c.sent[j] == Ack)
    && (Ack in c.sent ==> c.told != [] && c.told[|c.told| - 1] >= 300 && c.st in {Completed, Terminated})
  }

  /** The timers hold what the standard says, after `n` INVITEs; on a reliable transport one is sent. */
  predicate ClientTimes(c: Client, cfg: Config, n: nat) {
    Set(c.b, 64 * cfg.t1) && Set(c.d, 64 * cfg.t1) && Set(c.m, 64 * cfg.t1)
    && (c.st == Init ==> n == 0) && (c.st != Init && c.st != Terminated ==> n >= 1)
    && (c.a.Some? ==> !cfg.reliable && n >= 1 && c.a.value == Doubled(cfg.t1, n - 1))
    && (cfg.reliable ==> n <= 1)
  }

  predicate ClientSays(c: Client, cfg: Config) {
    ClientTells(c) && ClientSends(c) && ClientTimes(c, cfg, Invites(c.sent))
  }

  lemma ToldMore(c: Client, c': Client, code: nat)
    requires OneOutcome(c.told) && c'.told == c.told + [code] && code >= 100
    requires Unanswered(c) || (c.told != [] && Success(c.told[|c.told| - 1]) && Success(code))
    ensures OneOutcome(c'.told) && (Unanswered(c) && Provisional(code) ==> Unanswered(c'))
  {
    forall i, j | 0 <= i < j < |c'.told| ensures Provisional(c'.told[i])
      || (Success(c'.told[i]) && Success(c'.told[j])) {
      if j == |c.told| && !Unanswered(c) && i < |c.told| - 1 {
        assert Provisional(c.told[i]) || Success(c.told[i]);
      }
    }
  }

  lemma ClientStepTells(c: Client, e: ClientEvent, cfg: Config)
    requires ClientSlots(c) && ClientTells(c)
    ensures ClientTells(ClientStep(c, e, cfg))
  {
    if e.Response? && ClientStep(c, e, cfg).told != c.told {
      ToldMore(c, ClientStep(c, e, cfg), e.code);
    }
  }

  lemma ClientStepSends(c: Client, e: ClientEvent, cfg: Config)
    requires ClientSlots(c) && ClientTells(c) && ClientSends(c)
    ensures ClientSends(ClientStep(c, e, cfg))
  {
  }

  /** An INVITE goes out when the transaction starts and with timer A. */
  predicate SendsInvite(c: Client, e: ClientEvent) {
    (e == Send && c.st == Init) || (e == TimerA && c.a.Some? && c.st == Calling)
  }

  lemma InvitesSent(c: Client, e: ClientEvent, cfg: Config)
    ensures Invites(ClientStep(c, e, cfg).sent) == Invites(c.sent) + if SendsInvite(c, e) then 1 else 0
  {
    OneMore(c.sent, Invite);
    OneMore(c.sent, Ack);
  }

  lemma ClientStepTimes(c: Client, e: ClientEvent, cfg: Config, n: nat)
    requires ClientSlots(c) && ClientTimes(c, cfg, n)
    ensures ClientTimes(ClientStep(c, e, cfg), cfg, n + if SendsInvite(c, e) then 1 else 0)
  {
  }

  /**
   Over any run of an INVITE client: the user hears provisional responses and then one outcome; no INVITE follows an
   ACK, and an ACK is sent only for a reported response of 300 or above; timers B, D and M are 64 T1, and timer A is
   T1 doubled with every INVITE sent. On a reliable transport one INVITE is sent.
   */
  lemma {:induction false} ClientStory(es: seq<ClientEvent>, cfg: Config)
    ensures var c := ClientRun(NEW_CLIENT, es, cfg); ClientSlots(c) && ClientSays(c, cfg)
    decreases |es|
  {
    if es != [] {
      ClientStory(es[..|es| - 1], cfg);
      ClientRunKeeps(NEW_CLIENT, es, cfg);
      var c := ClientRun(NEW_CLIENT, es[..|es| - 1], cfg);
      ClientStepTells(c, es[|es| - 1], cfg);
      ClientStepSends(c, es[|es| - 1], cfg);
      InvitesSent(c, es[|es| - 1], cfg);
      ClientStepTimes(c, es[|es| - 1], cfg, Invites(c.sent));
    }
  }

  // ---------------------------------------------------------------- INVITE server

  /** After a final response nothing but that response is sent. */
  predicate OneAnswer(sent: seq<nat>) {
    forall i, j :: 0 <= i < j < |sent| && sent[i] >= 200 ==> sent[j] == sent[i]
  }

  /** T1, doubled up to T2. */
  ghost predicate Backed(v: nat, cfg: Config) {
    v == cfg.t1 || exists k: nat :: k >= 1 && v == Min(Doubled(cfg.t1, k), cfg.t2)
  }

  lemma BackedOn(v: nat, cfg: Config)
    requires Backed(v, cfg)
    ensures Backed(Min(2 * v, cfg.t2), cfg)
  {
    if v == cfg.t1 {
      assert Min(2 * v, cfg.t2) == Min(Doubled(cfg.t1, 1), cfg.t2);
    } else {
      var k: nat :| k >= 1 && v == Min(Doubled(cfg.t1, k), cfg.t2);
      assert Min(2 * v, cfg.t2) == Min(Doubled(cfg.t1, k + 1), cfg.t2);
    }
  }

  ghost predicate ServerSays(s: Server, cfg: Config) {
    OneAnswer(s.sent) && s.sent != []
    && (s.st == Proceeding ==> forall i :: 0 <= i < |s.sent| ==> s.sent[i] < 200)
    && (s.st == Proceeding || s.st == Completed ==> s.last == Some(s.sent[|s.sent| - 1]))
    && (s.g.Some? ==> !cfg.reliable && Backed(s.g.value, cfg))
    && Set(s.h, 64 * cfg.t1) && Set(s.i, cfg.t4) && Set(s.l, 64 * cfg.t1)
    && (s.acks > 0 ==> s.accepted)
  }

  lemma AnswerMore(sent: seq<nat>, code: nat)
    requires OneAnswer(sent)
    requires sent == [] || sent[|sent| - 1] == code || forall i :: 0 <= i < |sent| ==> sent[i] < 200
    ensures OneAnswer(sent + [code])
  {
    forall i, j | 0 <= i < j < |sent + [code]|
      && (sent + [code])[i] >= 200 ensures (sent + [code])[j] == (sent + [code])[i] {
      if j == |sent| && i < |sent| - 1 {
        assert sent[|sent| - 1] == sent[i];
      }
    }
  }

  lemma ServerStepSays(s: Server, e: ServerEvent, cfg: Config)
    requires ServerSlots(s) && ServerSays(s, cfg)
    ensures ServerSays(ServerStep(s, e, cfg), cfg)
  {
    match e {
      case Reply(code) =>
        if s.st == Proceeding {
          AnswerMore(s.sent, code);
        }
      case GotInvite => AnswerMore(s.sent, s.sent[|s.sent| - 1]);
      case TimerG =>
        AnswerMore(s.sent, s.sent[|s.sent| - 1]);
        if s.g.Some? {
          BackedOn(s.g.value, cfg);
        }
      case _ =>
    }
  }

  /**
   Over any run of an INVITE server: at most one final response is sent, and afterwards only repeated; what is sent
   again is what was sent last; timers H and L are 64 T1, timer I is T4, and timer G is T1 doubled up to T2.
   An ACK reaches the user only after a 2xx.
   */
  lemma {:induction false} ServerStory(es: seq<ServerEvent>, cfg: Config)
    ensures var s := ServerRun(NEW_SERVER, es, cfg); ServerSlots(s) && ServerSays(s, cfg)
    decreases |es|
  {
    if es != [] {
      ServerStory(es[..|es| - 1], cfg);
      ServerRunKeeps(NEW_SERVER, es, cfg);
      ServerStepSays(ServerRun(NEW_SERVER, es[..|es| - 1], cfg), es[|es| - 1], cfg);
    }
  }

  // ---------------------------------------------------------------- non-INVITE client

  ghost predicate CallerSays(c: Caller, cfg: Config) {
    |c.told| <= 2 && (|c.told| == 2 ==> c.told[0] < 200 <= c.told[1])
    && (c.st in {Init, Trying} ==> c.told == [])
    && (c.st == Proceeding ==> |c.told| == 1 && c.told[0] < 200)
    && (c.st == Completed ==> c.told != [] && c.told[|c.told| - 1] >= 200)
    && (c.st == Terminated && c.register ==> c.told != [] && c.told[|c.told| - 1] >= 200)
    && Set(c.f, 64 * cfg.t1) && Set(c.k, cfg.t4)
    && (c.e.Some? ==> !cfg.reliable && (Backed(c.e.value, cfg) || c.e.value == cfg.t2))
    && (c.st == Init ==> c.sent == 0) && (c.st == Trying || c.st == Proceeding ==> c.sent >= 1 && c.f.Some?)
    && (cfg.reliable ==> c.sent <= 1)
  }

  lemma CallerStepSays(c: Caller, e: CallerEvent, cfg: Config)
    requires CallerSlots(c) && CallerSays(c, cfg)
    ensures CallerSays(CallerStep(c, e, cfg), cfg) && CallerStep(c, e, cfg).register == c.register
  {
    if e == TimerE && c.e.Some? && c.st == Trying {
      if Backed(c.e.value, cfg) {
        BackedOn(c.e.value, cfg);
      }
    }
  }

  /**
   Over any run of a non-INVITE client: the user hears at most one provisional and at most one final response, in that
   order; timer F is 64 T1, timer K is T4, and timer E is T1 doubled up to T2, or T2. As long as there is no final
   response, timer F ends any transaction but a REGISTER, which it leaves as it is: that one ends only with a final
   response.
   */
  lemma {:induction false} CallerStory(register: bool, es: seq<CallerEvent>, cfg: Config)
    ensures var c := CallerRun(NewCaller(register), es, cfg);
            CallerSlots(c) && CallerSays(c, cfg) && c.register == register
            && (c.st in {Trying, Proceeding} ==> CallerStep(c, TimerF, cfg)
                                                 == if register then c else CallerTerminated(c))
    decreases |es|
  {
    if es != [] {
      CallerStory(register, es[..|es| - 1], cfg);
      CallerRunKeeps(NewCaller(register), es, cfg);
      CallerStepSays(CallerRun(NewCaller(register), es[..|es| - 1], cfg), es[|es| - 1], cfg);
    }
  }

  // ---------------------------------------------------------------- non-INVITE server

  predicate CalleeSays(c: Callee, cfg: Config) {
    OneAnswer(c.sent)
    && (c.st == Trying ==> c.sent == [] && c.last == None)
    && (c.st == Proceeding ==> forall i :: 0 <= i < |c.sent| ==> c.sent[i] < 200)
    && (c.st == Proceeding || c.st == Completed ==> c.sent != [] && c.last == Some(c.sent[|c.sent| - 1]))
    && Set(c.j, if cfg.reliable then 0 else 64 * cfg.t1)
    && (c.st == Completed ==> c.j.Some?)
  }

  lemma CalleeStepSays(c: Callee, e: CalleeEvent, cfg: Config)
    requires CalleeSlots(c) && CalleeSays(c, cfg)
    ensures CalleeSays(CalleeStep(c, e, cfg), cfg)
  {
    match e {
      case Respond(code) =>
        if c.st == Trying || c.st == Proceeding {
          AnswerMore(c.sent, code);
        }
      case Again =>
        if c.st == Proceeding || c.st == Completed {
          AnswerMore(c.sent, c.sent[|c.sent| - 1]);
        }
      case TimerJ =>
    }
  }

  /**
   Over any run of a non-INVITE server: at most one final response is sent, and afterwards only repeated; a request
   that comes again is answered by what was sent last; timer J is 64 T1, or 0 on a reliable transport.
   */
  lemma {:induction false} CalleeStory(es: seq<CalleeEvent>, cfg: Config)
    ensures var c := CalleeRun(NEW_CALLEE, es, cfg); CalleeSlots(c) && CalleeSays(c, cfg)
    decreases |es|
  {
    if es != [] {
      CalleeStory(es[..|es| - 1], cfg);
      CalleeRunKeeps(NEW_CALLEE, es, cfg);
      CalleeStepSays(CalleeRun(NEW_CALLEE, es[..|es| - 1], cfg), es[|es| - 1], cfg);
    }
  }
}
