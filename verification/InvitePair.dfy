/**
 An INVITE client transaction and the one server transaction for its branch, over a network that loses,
 repeats and reorders: whatever one side ever sent may reach the other at any time, any number of times.
 */
module InvitePair {
  import opened Wrappers
  import opened Transactions

  datatype Pair = Pair(client: Client, server: Option<Server>)

  /** What can happen next: a side moves on its own, or a message that was sent arrives. */
  datatype Move =
    | SendInvite
    | ClientTimer(c: ClientEvent)
    | ResponseArrives(code: nat)
    | FirstInviteArrives
    | InviteArrivesAgain
    | AckArrives
    | UserReplies(code: nat)
    | ServerTimer(s: ServerEvent)

  const START := Pair(NEW_CLIENT, None)

  predicate Enabled(p: Pair, m: Move) {
    match m
    case SendInvite => p.client.st == Init
    case ClientTimer(e) => e in {TimerA, TimerB, TimerD, TimerM}
    case ResponseArrives(code) => p.server.Some? && code in p.server.value.sent
    case FirstInviteArrives => p.server.None? && Invite in p.client.sent
    case InviteArrivesAgain => p.server.Some? && Invite in p.client.sent
    case AckArrives => p.server.Some? && Ack in p.client.sent
    case UserReplies(_) => p.server.Some?
    case ServerTimer(e) => p.server.Some? && e in {TimerG, TimerH, TimerI, TimerL}
  }

  function Serve(p: Pair, e: ServerEvent, cfg: Config): Pair
    requires p.server.Some?
  {
    p.(server := Some(ServerStep(p.server.value, e, cfg)))
  }

  function After(p: Pair, m: Move, cfg: Config): Pair
    requires Enabled(p, m)
  {
    match m
    case SendInvite => p.(client := ClientStep(p.client, Send, cfg))
    case ClientTimer(e) => p.(client := ClientStep(p.client, e, cfg))
    case ResponseArrives(code) => p.(client := ClientStep(p.client, Response(code), cfg))
    case FirstInviteArrives => p.(server := Some(NEW_SERVER))
    case InviteArrivesAgain => Serve(p, GotInvite, cfg)
    case AckArrives => Serve(p, GotAck, cfg)
    case UserReplies(code) => Serve(p, Reply(code), cfg)
    case ServerTimer(e) => Serve(p, e, cfg)
  }

  /** The pairs that `n` moves lead to. */
  ghost predicate Reachable(p: Pair, cfg: Config, n: nat)
    decreases n
  {
    if n == 0 then p == START
    else exists q: Pair, m: Move :: Reachable(q, cfg, n - 1) && Enabled(q, m) && After(q, m, cfg) == p
  }

  predicate Final2xx(code: nat) {
    200 <= code < 300
  }

  // ---------------------------------------------------------------- what both sides can know

  /** Final responses on their way say which final state the server reached. */
  predicate Honest(s: Server) {
    (forall code :: code in s.sent ==> (Final2xx(code) ==> s.accepted) && (code >= 300 ==> s.completed))
  }

  /** The client knows nothing that the server did not send, and ends up only where a final response put it. */
  predicate Informed(c: Client, sent: seq<nat>) {
    (forall code :: code in c.told ==> code in sent)
    && (c.st == Completed || c.built ==> exists code :: code in sent && code >= 300)
    && (c.st == Accepted ==> exists code :: code in sent && Final2xx(code))
    && (Ack in c.sent ==> c.built)
  }

  predicate Inv(p: Pair) {
    ClientSlots(p.client)
    && match p.server
       case None => Informed(p.client, [])
       case Some(s) =>
         ServerSlots(s) && Honest(s) && Informed(p.client, s.sent) && (s.st == Confirmed ==> p.client.built)
  }

  lemma ServerStaysHonest(s: Server, e: ServerEvent, cfg: Config)
    requires ServerSlots(s) && Honest(s)
    ensures Honest(ServerStep(s, e, cfg)) && forall code :: code in s.sent ==> code in ServerStep(s, e, cfg).sent
  {
    var s' := ServerStep(s, e, cfg);
    forall code | code in s'.sent ensures (Final2xx(code) ==> s'.accepted) && (code >= 300 ==> s'.completed) {
      if code !in s.sent {
        assert s'.sent[|s'.sent| - 1] == code;
      }
    }
  }

  lemma ClientStaysInformed(c: Client, e: ClientEvent, cfg: Config, sent: seq<nat>)
    requires ClientSlots(c) && Informed(c, sent) && (e.Response? ==> e.code in sent)
    ensures Informed(ClientStep(c, e, cfg), sent)
  {
  }

  lemma MoreSent(c: Client, sent: seq<nat>, sent': seq<nat>)
    requires Informed(c, sent) && forall code :: code in sent ==> code in sent'
    ensures Informed(c, sent')
  {
  }

  lemma ServeKeeps(p: Pair, e: ServerEvent, cfg: Config)
    requires Inv(p) && p.server.Some? && (e == GotAck ==> Ack in p.client.sent)
    ensures Inv(Serve(p, e, cfg))
  {
    var s := p.server.value;
    ServerStepKeeps(s, e, cfg);
    ServerStaysHonest(s, e, cfg);
    MoreSent(p.client, s.sent, ServerStep(s, e, cfg).sent);
  }

  lemma ClientKeeps(p: Pair, e: ClientEvent, cfg: Config)
    requires Inv(p) && (e.Response? ==> p.server.Some? && e.code in p.server.value.sent)
    ensures Inv(p.(client := ClientStep(p.client, e, cfg)))
  {
    var sent := if p.server.Some? then p.server.value.sent else [];
    ClientStepKeeps(p.client, e, cfg);
    ClientStaysInformed(p.client, e, cfg, sent);
  }

  lemma StepKeeps(p: Pair, m: Move, cfg: Config)
    requires Inv(p) && Enabled(p, m)
    ensures Inv(After(p, m, cfg))
  {
    match m {
      case SendInvite => ClientKeeps(p, Send, cfg);
      case ClientTimer(e) => ClientKeeps(p, e, cfg);
      case ResponseArrives(code) => ClientKeeps(p, Response(code), cfg);
      case FirstInviteArrives => MoreSent(p.client, [], NEW_SERVER.sent);
      case InviteArrivesAgain => ServeKeeps(p, GotInvite, cfg);
      case AckArrives => ServeKeeps(p, GotAck, cfg);
      case UserReplies(code) => ServeKeeps(p, Reply(code), cfg);
      case ServerTimer(e) => ServeKeeps(p, e, cfg);
    }
  }

  lemma {:induction false} AllReachable(p: Pair, cfg: Config, n: nat)
    requires Reachable(p, cfg, n)
    ensures Inv(p)
    decreases n
  {
    if n > 0 {
      var q: Pair, m: Move :| Reachable(q, cfg, n - 1) && Enabled(q, m) && After(q, m, cfg) == p;
      AllReachable(q, cfg, n - 1);
      StepKeeps(q, m, cfg);
    }
  }

  /**
   Agreement, in every reachable state: a client in Completed or Accepted has a server that reached the same
   state and never the other; a server in Confirmed has a client that built the ACK; and the user is
   never told both a 2xx and another final response.
   */
  lemma {:induction false} Agreement(p: Pair, cfg: Config, n: nat)
    requires Reachable(p, cfg, n)
    ensures p.client.st == Completed ==> p.server.Some? && p.server.value.completed && !p.server.value.accepted
    ensures p.client.st == Accepted ==> p.server.Some? && p.server.value.accepted && !p.server.value.completed
    ensures p.server.Some? && p.server.value.st == Confirmed ==> p.client.built && !p.server.value.accepted
    ensures forall x, y :: x in p.client.told && y in p.client.told && Final2xx(x) ==> y < 300
  {
    AllReachable(p, cfg, n);
  }

  /** `m` can happen in `p` and leads to `q`. */
  predicate Moves(p: Pair, m: Move, cfg: Config, q: Pair) {
    Enabled(p, m) && q == After(p, m, cfg)
  }

  lemma OneMove(p: Pair, m: Move, cfg: Config, n: nat, q: Pair)
    requires Reachable(p, cfg, n) && Moves(p, m, cfg, q)
    ensures Reachable(q, cfg, n + 1)
  {
    assert Reachable(p, cfg, n + 1 - 1);
  }

  /** The INVITE has arrived. */
  predicate Begun(p: Pair) {
    p.server.Some? && ClientSlots(p.client) && p.client.st == Calling && p.client.sent == [Invite]
      && p.client.told == []
    && p.server == Some(NEW_SERVER)
  }

  lemma CallBegins(cfg: Config) returns (p: Pair, q: Pair)
    ensures Moves(START, SendInvite, cfg, p) && Moves(p, FirstInviteArrives, cfg, q) && Begun(q)
  {
    p := After(START, SendInvite, cfg);
    assert p.client.sent[0] == Invite;
    q := After(p, FirstInviteArrives, cfg);
  }

  /** It rings. */
  predicate Rings(p: Pair) {
    p.server.Some? && ClientSlots(p.client) && p.client.st == Proceeding && p.client.sent == [Invite]
      && p.client.told == [180]
    && p.server.value.st == Proceeding && ServerSlots(p.server.value) && p.server.value.sent == [100, 180]
  }

  lemma CallRings(p: Pair, cfg: Config) returns (q: Pair, r: Pair)
    requires Begun(p)
    ensures Moves(p, UserReplies(180), cfg, q) && Moves(q, ResponseArrives(180), cfg, r) && Rings(r)
  {
    q := After(p, UserReplies(180), cfg);
    assert q.server.value.sent == [100, 180] && q.server.value.sent[1] == 180;
    r := After(q, ResponseArrives(180), cfg);
  }

  /** It was refused. */
  predicate Refused(p: Pair) {
    p.server.Some? && ClientSlots(p.client) && p.client.st == Completed && p.client.d.Some?
      && p.client.sent == [Invite, Ack]
    && p.client.told == [180, 486]
    && p.server.value.st == Completed && ServerSlots(p.server.value) && p.server.value.sent == [100, 180, 486]
  }

  lemma CallRefuses(p: Pair, cfg: Config) returns (q: Pair, r: Pair)
    requires Rings(p)
    ensures Moves(p, UserReplies(486), cfg, q) && Moves(q, ResponseArrives(486), cfg, r) && Refused(r)
  {
    q := After(p, UserReplies(486), cfg);
    assert q.server.value.sent[2] == 486;
    r := After(q, ResponseArrives(486), cfg);
  }

  lemma RefusalEnds(p: Pair, cfg: Config) returns (q: Pair, r: Pair)
    requires Refused(p) && !cfg.reliable
    ensures Moves(p, AckArrives, cfg, q) && Moves(q, ServerTimer(TimerI), cfg, r) && r.client == p.client
    ensures r.server.Some? && r.server.value.st == Terminated && r.server.value.sent == p.server.value.sent
  {
    assert p.client.sent[1] == Ack;
    q := After(p, AckArrives, cfg);
    r := After(q, ServerTimer(TimerI), cfg);
  }

  lemma CallEnds(p: Pair, cfg: Config) returns (q: Pair)
    requires p.client.st == Completed && p.client.d.Some?
    ensures Moves(p, ClientTimer(TimerD), cfg, q) && q.server == p.server
    ensures q.client.st == Terminated && q.client.told == p.client.told && q.client.sent == p.client.sent
  {
    q := After(p, ClientTimer(TimerD), cfg);
  }

  lemma TwoMoves(p: Pair, m: Move, q: Pair, m': Move, cfg: Config, n: nat, r: Pair)
    requires Reachable(p, cfg, n) && Moves(p, m, cfg, q) && Moves(q, m', cfg, r)
    ensures Reachable(r, cfg, n + 2)
  {
    OneMove(p, m, cfg, n, q);
    OneMove(q, m', cfg, n + 1, r);
  }

  lemma Ringing(cfg: Config, n: nat) returns (p: Pair)
    requires Reachable(START, cfg, n)
    ensures Reachable(p, cfg, n + 4) && Rings(p)
  {
    var p1, p2 := CallBegins(cfg);
    TwoMoves(START, SendInvite, p1, FirstInviteArrives, cfg, n, p2);
    var p3: Pair;
    p3, p := CallRings(p2, cfg);
    TwoMoves(p2, UserReplies(180), p3, ResponseArrives(180), cfg, n + 2, p);
  }

  /**
   The moves can bring a call to its end: it rings, is refused, the refusal is acknowledged, and both sides terminate.
   */
  lemma {:induction false} CallRefused(cfg: Config) returns (p: Pair, n: nat)
    requires !cfg.reliable
    ensures Reachable(p, cfg, n) && p.client.st == Terminated && p.client.told == [180, 486]
            && p.client.sent == [Invite, Ack]
    ensures p.server.Some? && p.server.value.st == Terminated && p.server.value.sent == [100, 180, 486]
  {
    n := 0;
    var p4 := Ringing(cfg, n);
    var p5, p6 := CallRefuses(p4, cfg);
    TwoMoves(p4, UserReplies(486), p5, ResponseArrives(486), cfg, n + 4, p6);
    var p7, p8 := RefusalEnds(p6, cfg);
    TwoMoves(p6, AckArrives, p7, ServerTimer(TimerI), cfg, n + 6, p8);
    p := CallEnds(p8, cfg);
    OneMove(p8, ClientTimer(TimerD), cfg, n + 8, p);
    n := n + 9;
  }
}
