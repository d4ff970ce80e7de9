/**
 What every run of `dns_res_exec` keeps: the stack stays within its bounds, a frame that waits for the one above it is
 left alone and finds an answer there, and no packet is used, or freed, that is not allocated.
 */
module DnsResolverSafe {
  import opened Wrappers
  import opened DnsResolver

  /** The states in which a frame waits for the one above it. */
  predicate Waiting(s: State) {
    s == Resolv1 || s == Cname1 || s == Smart1
  }

  /** The states that look at the frame's answer, at its hints and at its query without asking whether there is one. */
  predicate NeedsAnswer(s: State) {
    s == Cname0 || s == Cname1 || s == Finish || s == Smart0 || s == Smart1 || s == Done
  }

  predicate NeedsHints(s: State) {
    s == Iterate || s == ForeachNs || s == Resolv0 || s == Resolv1 || s == ForeachA || s == QueryA
  }

  predicate NeedsQuery(s: State) {
    NeedsHints(s) || s == Submit || s == Hints || s == Cname0
  }

  /** A frame at depth `i`. */
  predicate FrameOk(c: Config, i: nat, f: Frame) {
    (NeedsAnswer(f.state) ==> f.answer.Some?)
    && (NeedsHints(f.state) ==> f.hints.Some?)
    && (NeedsQuery(f.state) || i > 0 ==> f.query.Some?)
    && (f.state == Smart0 || f.state == Smart1 ==> i == 0)
    && (f.state == Cache || f.state == Submit || f.state == Check || f.state == Fetch ==> c.cache)
  }

  /** What the frames look like whenever `dns_res_exec` is at its label. */
  ghost predicate Shape(c: Config, r: Resolver) {
    r.Sized()
    && (forall i :: 0 <= i <= r.sp ==> FrameOk(c, i, r.stack[i]))
    && (forall i :: 0 <= i < r.sp ==> Waiting(r.stack[i].state))
    && (Waiting(r.Top().state) ==> r.sp + 1 < MAXDEPTH && r.stack[r.sp + 1].query.Some?
                                   && r.stack[r.sp + 1].answer.Some?)
  }

  /**
   A turn keeps the shape, changes no frame but the top one and the one above it, and returns without an error only
   when done.
   */
  ghost predicate Good(c: Config, r: Resolver, o: Outcome)
    requires r.Sized()
  {
    Shape(c, o.r)
    && (forall i :: 0 <= i < r.sp ==> o.r.stack[i] == r.stack[i])
    && r.sp <= o.r.sp + 1
    && (o.Return? && o.ok ==> o.r.sp == 0 && o.r.Top().state == Done)
  }

  // ---------------------------------------------------------------- turns that stay in the frame

  /** Only the top frame changed, and it is all right on its own. */
  ghost predicate TopOk(c: Config, r: Resolver, o: Outcome)
    requires r.Sized()
  {
    o.r.sp == r.sp && |o.r.stack| == MAXDEPTH
    && (forall i :: 0 <= i < MAXDEPTH && i != r.sp ==> o.r.stack[i] == r.stack[i])
    && FrameOk(c, r.sp, o.r.stack[r.sp])
    && (Waiting(o.r.stack[r.sp].state) ==> o.r.stack[r.sp].state == r.Top().state)
    && (o.Return? ==> !o.ok)
  }

  lemma TopGood(c: Config, r: Resolver, o: Outcome)
    requires Shape(c, r) && TopOk(c, r, o)
    ensures Good(c, r, o)
  {
  }

  lemma TopOver(c: Config, r: Resolver, s: Resolver, o: Outcome)
    requires r.Sized() && s.Sized() && s.sp == r.sp && s.Top().state == r.Top().state && TopOk(c, s, o)
    requires forall i :: 0 <= i < MAXDEPTH && i != r.sp ==> s.stack[i] == r.stack[i]
    ensures TopOk(c, r, o)
  {
  }

  lemma JumpOk(c: Config, r: Resolver, s: State)
    requires r.Sized() && FrameOk(c, r.sp, r.Top()) && !Waiting(s) && FrameOk(c, r.sp, r.Top().(state := s))
    ensures TopOk(c, r, Jump(r, s))
  {
  }

  lemma NewAnswer(c: Config, r: Resolver, p: nat, s: Resolver)
    requires r.Sized() && FrameOk(c, r.sp, r.Top()) && s == PutAnswer(r, r.sp, Some(p))
    ensures s.Sized() && s.sp == r.sp && s.Top().state == r.Top().state && FrameOk(c, s.sp, s.Top())
            && s.Top().answer.Some?
    ensures forall i :: 0 <= i < MAXDEPTH && i != r.sp ==> s.stack[i] == r.stack[i]
  {
  }

  lemma FailOk(c: Config, r: Resolver)
    requires r.Sized() && FrameOk(c, r.sp, r.Top())
    ensures TopOk(c, r, Fail(r))
  {
  }

  lemma NoneOk(c: Config, r: Resolver)
    requires r.Sized() && FrameOk(c, r.sp, r.Top()) && !NeedsAnswer(r.Top().state)
    ensures TopOk(c, r, Fail(PutAnswer(r, r.sp, None)))
  {
  }

  lemma NoAnswer(c: Config, r: Resolver, s: Resolver)
    requires r.Sized() && FrameOk(c, r.sp, r.Top()) && !NeedsAnswer(r.Top().state) && s == PutAnswer(r, r.sp, None)
    ensures s.Sized() && s.sp == r.sp && s.Top().state == r.Top().state && FrameOk(c, s.sp, s.Top())
    ensures s.Top().query == r.Top().query && s.search == r.search
    ensures forall i :: 0 <= i < MAXDEPTH && i != r.sp ==> s.stack[i] == r.stack[i]
  {
  }

  /**
   A packet that was asked for has records, and the frame is done, or it has none, and the next lookup method is
   tried.
   */
  lemma AskedOk(c: Config, r: Resolver, s: Resolver, p: nat, found: bool, o: Outcome)
    requires r.Sized() && FrameOk(c, r.sp, r.Top()) && !NeedsAnswer(r.Top().state)
    requires s == PutAnswer(r, r.sp, Some(p))
             && o == if found then Jump(s, Finish) else Jump(PutAnswer(s, s.sp, None), Switch)
    ensures TopOk(c, r, o)
  {
    NewAnswer(c, r, p, s);
    if found {
      JumpOk(c, s, Finish);
      TopOver(c, r, s, o);
    } else {
      var t := PutAnswer(s, s.sp, None);
      NoAnswer(c, s, t);
      JumpOk(c, t, Switch);
      TopOver(c, s, t, o);
      TopOver(c, r, s, o);
    }
  }

  lemma GlueOk(c: Config, r: Resolver, e: Env)
    requires r.Sized() && FrameOk(c, r.sp, r.Top()) && r.Top().state == Glue
    ensures TopOk(c, r, GlueTurn(r, e))
  {
  }

  lemma {:induction false} MethodIs(c: Config, which: nat)
    ensures var s := Method(c, which).0; s == Servfail || s == Bind || s == File || (s == Cache && c.cache)
    decreases |c.lookup| - which
  {
    if which < |c.lookup| {
      MethodIs(c, which + 1);
    }
  }

  lemma SwitchOk(c: Config, r: Resolver)
    requires r.Sized() && FrameOk(c, r.sp, r.Top()) && r.Top().state == Switch
    ensures TopOk(c, r, SwitchTurn(c, r))
  {
    MethodIs(c, r.Top().which);
  }

  /** A name that the hosts file does not have leaves the frame without an answer. */
  lemma FileMissed(c: Config, r: Resolver, p: nat, s: Resolver)
    requires r.Sized() && FrameOk(c, r.sp, r.Top()) && r.Top().state == File
    requires s == PutAnswer(PutAnswer(r.(search := r.search + 1), r.sp, Some(p)), r.sp, None)
    ensures s.Sized() && s.sp == r.sp && s.Top().state == File && FrameOk(c, s.sp, s.Top()) && s.search == r.search + 1
    ensures forall i :: 0 <= i < MAXDEPTH && i != r.sp ==> s.stack[i] == r.stack[i]
  {
    var r' := r.(search := r.search + 1);
    var t := PutAnswer(r', r.sp, Some(p));
    NewAnswer(c, r', p, t);
    NoAnswer(c, t, s);
  }

  lemma FileStep(c: Config, r: Resolver, e: Env, k: nat, s: Resolver)
    requires r.Sized() && r.search < c.names && e.ok(2 * k) && e.ok(2 * k + 1) && !e.yes(k)
    requires s == PutAnswer(PutAnswer(r.(search := r.search + 1), r.sp, Some(e.packet(k))), r.sp, None)
    ensures FileTurns(c, r, e, k) == FileTurns(c, s, e, k + 1)
  {
  }

  /** A turn of the loop that is not the last. */
  lemma FileNext(c: Config, r: Resolver, e: Env, k: nat) returns (s: Resolver)
    requires r.Sized() && FrameOk(c, r.sp, r.Top()) && r.Top().state == File
    requires r.search < c.names && e.ok(2 * k) && e.ok(2 * k + 1) && !e.yes(k)
    ensures s.Sized() && s.sp == r.sp && s.Top().state == File && FrameOk(c, s.sp, s.Top()) && s.search == r.search + 1
    ensures forall i :: 0 <= i < MAXDEPTH && i != r.sp ==> s.stack[i] == r.stack[i]
    ensures FileTurns(c, r, e, k) == FileTurns(c, s, e, k + 1)
  {
    s := PutAnswer(PutAnswer(r.(search := r.search + 1), r.sp, Some(e.packet(k))), r.sp, None);
    FileMissed(c, r, e.packet(k), s);
    FileStep(c, r, e, k, s);
  }

  lemma FileEnds(c: Config, r: Resolver, e: Env, k: nat)
    requires r.Sized() && FrameOk(c, r.sp, r.Top()) && r.Top().state == File
    requires r.search >= c.names || !e.ok(2 * k) || !e.ok(2 * k + 1) || e.yes(k)
    ensures TopOk(c, r, FileTurns(c, r, e, k))
  {
  }

  lemma {:induction false} FileTurnsOk(c: Config, r: Resolver, e: Env, k: nat)
    requires r.Sized() && FrameOk(c, r.sp, r.Top()) && r.Top().state == File
    ensures TopOk(c, r, FileTurns(c, r, e, k))
    decreases c.names - r.search
  {
    if r.search < c.names && e.ok(2 * k) && e.ok(2 * k + 1) && !e.yes(k) {
      var s := FileNext(c, r, e, k);
      FileTurnsOk(c, s, e, k + 1);
      TopOver(c, r, s, FileTurns(c, r, e, k));
    } else {
      FileEnds(c, r, e, k);
    }
  }

  lemma FileOk(c: Config, r: Resolver, e: Env)
    requires r.Sized() && FrameOk(c, r.sp, r.Top()) && r.Top().state == File
    ensures TopOk(c, r, FileTurn(c, r, e))
  {
    if r.sp == 0 {
      var s := r.(search := 0);
      FileTurnsOk(c, s, e, 0);
      TopOver(c, r, s, FileTurn(c, r, e));
    } else if e.ok(0) {
      AskedOk(c, r, PutAnswer(r, r.sp, Some(e.packet(0))), e.packet(0), e.yes(0), FileTurn(c, r, e));
    } else {
      NoneOk(c, r);
    }
  }

  lemma CachedOk(c: Config, r: Resolver, e: Env, s: State)
    requires r.Sized() && FrameOk(c, r.sp, r.Top()) && c.cache && !Waiting(r.Top().state) && !NeedsAnswer(r.Top().state)
    requires s == Switch || (s == Submit && r.Top().query.Some?)
    ensures TopOk(c, r, Cached(r, e, s))
  {
    if e.yes(0) {
      AskedOk(c, r, PutAnswer(r, r.sp, Some(e.packet(1))), e.packet(1), e.yes(1), Cached(r, e, s));
    } else {
      var t := PutAnswer(r, r.sp, None);
      NoAnswer(c, r, t);
      MissedOk(c, r, t, s, e.ok(1), Cached(r, e, s));
    }
  }

  lemma MissedOk(c: Config, r: Resolver, t: Resolver, s: State, ok: bool, o: Outcome)
    requires r.Sized() && t.Sized() && t.sp == r.sp && t.Top().state == r.Top().state && FrameOk(c, t.sp, t.Top())
    requires forall i :: 0 <= i < MAXDEPTH && i != r.sp ==> t.stack[i] == r.stack[i]
    requires !Waiting(s) && FrameOk(c, t.sp, t.Top().(state := s)) && o == if ok then Jump(t, s) else Fail(t)
    ensures TopOk(c, r, o)
  {
    JumpOk(c, t, s);
    FailOk(c, t);
    TopOver(c, r, t, o);
  }

  lemma CacheOk(c: Config, r: Resolver, e: Env)
    requires r.Sized() && FrameOk(c, r.sp, r.Top()) && r.Top().state == Cache
    ensures TopOk(c, r, CacheTurn(r, e))
  {
    if r.Top().query.Some? {
      CachedOk(c, r, e, Submit);
    } else {
      CachedOk(c, PutQuery(r, r.sp, Some(e.packet(0))), e, Submit);
    }
  }

  lemma BindOk(c: Config, r: Resolver)
    requires r.Sized() && FrameOk(c, r.sp, r.Top()) && r.Top().state == Bind
    ensures TopOk(c, r, BindTurn(r))
  {
  }

  lemma SearchOk(c: Config, r: Resolver, e: Env)
    requires r.Sized() && FrameOk(c, r.sp, r.Top()) && r.Top().state == Search
    ensures TopOk(c, r, SearchTurn(c, r, e))
  {
  }

  lemma HintsOk(c: Config, r: Resolver, e: Env)
    requires r.Sized() && FrameOk(c, r.sp, r.Top()) && r.Top().state == Hints
    ensures TopOk(c, r, HintsTurn(r, e))
  {
  }

  lemma IterateOk(c: Config, r: Resolver, e: Env)
    requires r.Sized() && FrameOk(c, r.sp, r.Top()) && r.Top().state == Iterate
    ensures TopOk(c, r, IterateTurn(r, e))
  {
  }

  lemma ForeachNsOk(c: Config, r: Resolver, e: Env)
    requires r.Sized() && FrameOk(c, r.sp, r.Top()) && r.Top().state == ForeachNs
    ensures TopOk(c, r, ForeachNsTurn(c, r, e))
  {
  }

  lemma Resolv1Ok(c: Config, r: Resolver, e: Env)
    requires r.Sized() && FrameOk(c, r.sp, r.Top()) && r.Top().state == Resolv1
    ensures TopOk(c, r, Resolv1Turn(r, e))
  {
  }

  lemma ForeachAOk(c: Config, r: Resolver, e: Env)
    requires r.Sized() && FrameOk(c, r.sp, r.Top()) && r.Top().state == ForeachA
    ensures TopOk(c, r, ForeachATurn(r, e))
  {
  }

  lemma AnsweredOk(c: Config, r: Resolver, e: Env)
    requires r.Sized() && FrameOk(c, r.sp, r.Top()) && r.Top().state == QueryA && r.Top().answer.Some?
    ensures TopOk(c, r, Answered(c, r, e))
  {
  }

  lemma QueryAOk(c: Config, r: Resolver, e: Env)
    requires r.Sized() && FrameOk(c, r.sp, r.Top()) && r.Top().state == QueryA
    ensures TopOk(c, r, QueryATurn(c, r, e))
  {
    if !e.yes(0) && e.ok(0) && e.ok(1) {
      var s := PutAnswer(r, r.sp, Some(e.packet(0)));
      NewAnswer(c, r, e.packet(0), s);
      AnsweredOk(c, s, e);
      TopOver(c, r, s, Answered(c, s, e));
    }
  }

  lemma Cname1Ok(c: Config, r: Resolver, e: Env)
    requires r.Sized() && FrameOk(c, r.sp, r.Top()) && r.Top().state == Cname1
    ensures TopOk(c, r, Cname1Turn(r, e))
  {
  }

  lemma FinishOk(c: Config, r: Resolver, e: Env)
    requires r.Sized() && FrameOk(c, r.sp, r.Top()) && r.Top().state == Finish
    ensures TopOk(c, r, FinishTurn(c, r, e))
  {
  }

  lemma Smart1Ok(c: Config, r: Resolver, e: Env)
    requires r.Sized() && FrameOk(c, r.sp, r.Top()) && r.Top().state == Smart1
    ensures TopOk(c, r, Smart1Turn(r, e))
  {
  }

  lemma ServfailMade(c: Config, r: Resolver, s: Resolver, p: nat, ok: bool, o: Outcome)
    requires r.Sized() && FrameOk(c, r.sp, r.Top()) && r.Top().state == Servfail && s == PutAnswer(r, r.sp, Some(p))
    requires o == if ok then Jump(s, Done) else Fail(s)
    ensures TopOk(c, r, o)
  {
    NewAnswer(c, r, p, s);
    JumpOk(c, s, Done);
    FailOk(c, s);
    TopOver(c, r, s, o);
  }

  lemma ServfailOk(c: Config, r: Resolver, e: Env)
    requires r.Sized() && FrameOk(c, r.sp, r.Top()) && r.Top().state == Servfail
    ensures TopOk(c, r, ServfailTurn(r, e))
  {
    if e.ok(0) {
      ServfailMade(c, r, PutAnswer(r, r.sp, Some(e.packet(0))), e.packet(0), e.ok(1), ServfailTurn(r, e));
    } else {
      NoneOk(c, r);
    }
  }

  /** DNS_R_INIT, DNS_R_SUBMIT and DNS_R_CHECK. */
  lemma PlainOk(c: Config, r: Resolver, e: Env)
    requires r.Sized() && FrameOk(c, r.sp, r.Top())
    ensures r.Top().state == Init ==> TopOk(c, r, Jump(r, Glue))
    ensures r.Top().state == Submit ==> TopOk(c, r, AskTurn(r, e, Check))
    ensures r.Top().state == Check ==> TopOk(c, r, AskTurn(r, e, Fetch))
  {
  }

  lemma StaysOk(c: Config, r: Resolver, e: Env)
    requires r.Sized() && FrameOk(c, r.sp, r.Top())
    requires var s := r.Top().state; s != Resolv0 && s != Cname0 && s != Smart0 && s != Done
    ensures TopOk(c, r, Turn(c, r, e))
  {
    match r.Top().state {
      case Init | Submit | Check => PlainOk(c, r, e);
      case Glue => GlueOk(c, r, e);
      case Switch => SwitchOk(c, r);
      case File => FileOk(c, r, e);
      case Cache => CacheOk(c, r, e);
      case Fetch => CachedOk(c, r, e, Switch);
      case Bind => BindOk(c, r);
      case Search => SearchOk(c, r, e);
      case Hints => HintsOk(c, r, e);
      case Iterate => IterateOk(c, r, e);
      case ForeachNs => ForeachNsOk(c, r, e);
      case Resolv1 => Resolv1Ok(c, r, e);
      case ForeachA => ForeachAOk(c, r, e);
      case QueryA => QueryAOk(c, r, e);
      case Cname1 => Cname1Ok(c, r, e);
      case Finish => FinishOk(c, r, e);
      case Smart1 => Smart1Ok(c, r, e);
      case Servfail => ServfailOk(c, r, e);
    }
  }

  // ---------------------------------------------------------------- turns that push a frame, or pop one

  lemma PushGood(c: Config, r: Resolver, s: State, p: nat)
    requires Shape(c, r) && r.sp + 1 < MAXDEPTH && !Waiting(r.Top().state)
    requires Waiting(s) && FrameOk(c, r.sp, r.Top().(state := s))
    ensures Good(c, r, Again(Push(r, s, p)))
  {
  }

  lemma ResetGood(c: Config, r: Resolver)
    requires Shape(c, r) && r.sp + 1 < MAXDEPTH && !Waiting(r.Top().state)
    ensures var s := Reset(r, r.sp + 1); Good(c, r, Return(s, false)) && s.Top() == r.Top() && s.sp == r.sp
  {
  }

  lemma QueryGood(c: Config, r: Resolver, p: nat)
    requires Shape(c, r) && r.sp + 1 < MAXDEPTH && !Waiting(r.Top().state)
    ensures Good(c, r, Fail(PutQuery(r, r.sp + 1, Some(p))))
  {
  }

  lemma GoodOver(c: Config, r: Resolver, s: Resolver, o: Outcome)
    requires r.Sized() && s.Sized() && Good(c, s, o) && s.sp == r.sp && forall i :: 0 <= i < r.sp ==>
             s.stack[i] == r.stack[i]
    ensures Good(c, r, o)
  {
  }

  /** The frame above is set up for a query, which may fail at two points. */
  lemma DescendGood(c: Config, r: Resolver, up: State, made: bool, pushed: bool, p: nat, o: Outcome)
    requires Shape(c, r) && r.sp + 1 < MAXDEPTH && !Waiting(r.Top().state)
    requires Waiting(up) && FrameOk(c, r.sp, r.Top().(state := up))
    requires var s := Reset(r, r.sp + 1);
             o == if !made then Fail(s) else if !pushed
                                             then Fail(PutQuery(s, s.sp + 1, Some(p))) else Again(Push(s, up, p))
    ensures Good(c, r, o)
  {
    ResetGood(c, r);
    var s := Reset(r, r.sp + 1);
    if made {
      PushGood(c, s, up, p);
      QueryGood(c, s, p);
      GoodOver(c, r, s, o);
    }
  }

  lemma Resolv0Good(c: Config, r: Resolver, e: Env)
    requires Shape(c, r) && r.Top().state == Resolv0
    ensures Good(c, r, Resolv0Turn(r, e))
  {
    if r.sp + 1 < MAXDEPTH {
      DescendGood(c, r, Resolv1, e.ok(0), e.ok(1), e.packet(0), Resolv0Turn(r, e));
    } else {
      JumpOk(c, r, ForeachNs);
      TopGood(c, r, Jump(r, ForeachNs));
    }
  }

  lemma Cname0Good(c: Config, r: Resolver, e: Env)
    requires Shape(c, r) && r.Top().state == Cname0
    ensures Good(c, r, Cname0Turn(r, e))
  {
    if r.sp + 1 >= MAXDEPTH {
      JumpOk(c, r, Finish);
      TopGood(c, r, Jump(r, Finish));
    } else if e.ok(0) {
      DescendGood(c, r, Cname1, e.ok(1), e.ok(2), e.packet(0), Cname0Turn(r, e));
    }
  }

  lemma AskIs(c: Config, r: Resolver, e: Env, s: Resolver, t: Resolver)
    requires r.Sized() && r.sp + 1 < MAXDEPTH && s == Reset(r, r.sp + 1) && t.Sized() && t.stack == s.stack
             && t.sp == r.sp
    requires Good(c, r, Return(s, false)) && Good(c, t, Again(Push(t, Smart1, e.packet(0))))
    requires forall i :: 0 <= i < r.sp ==> t.stack[i] == r.stack[i]
    ensures Good(c, r, Fail(s)) && Good(c, r, Again(Push(t, Smart1, e.packet(0))))
  {
  }

  lemma AskGood(c: Config, r: Resolver, e: Env, more: nat)
    requires Shape(c, r) && r.sp == 0 && r.Top().state == Smart0
    ensures Good(c, r, Ask(r, e, more))
  {
    ResetGood(c, r);
    var s := Reset(r, r.sp + 1);
    var t := s.(returned := s.returned + more);
    SmartCounts(c, s, t, Fail(t));
    PushGood(c, t, Smart1, e.packet(0));
    AskIs(c, r, e, s, t);
  }

  /** The counters of the iterator are no part of the frames. */
  lemma SmartCounts(c: Config, r: Resolver, s: Resolver, o: Outcome)
    requires r.Sized() && s.stack == r.stack && s.sp == r.sp
    ensures (Shape(c, r) ==> Shape(c, s)) && (Good(c, s, o) ==> Good(c, r, o))
  {
  }

  lemma Smart0Good(c: Config, r: Resolver, e: Env)
    requires Shape(c, r) && r.Top().state == Smart0
    ensures Good(c, r, Smart0Turn(c, r, e))
  {
    var o := Smart0Turn(c, r, e);
    if r.smart > 0 && e.yes(0) {
      var s := r.(smart := r.smart - 1, returned := r.returned + e.size(0) + 1);
      SmartGood(c, r, e, s, 0, o);
    } else {
      var s := r.(returned := r.returned + e.size(0));
      SmartGood(c, r, e, s, 1, o);
    }
  }

  lemma SmartGood(c: Config, r: Resolver, e: Env, s: Resolver, more: nat, o: Outcome)
    requires Shape(c, r) && r.Top().state == Smart0 && s.stack == r.stack && s.sp == r.sp
    requires o == Ask(s, e, more) || o == Fail(s) || o == Jump(s, Done)
    ensures Good(c, r, o)
  {
    SmartCounts(c, r, s, o);
    AskGood(c, s, e, more);
    JumpOk(c, s, Done);
    TopGood(c, s, Jump(s, Done));
  }

  lemma DoneGood(c: Config, r: Resolver)
    requires Shape(c, r) && r.Top().state == Done
    ensures Good(c, r, DoneTurn(r))
  {
  }

  lemma {:induction false} ShapeKept(c: Config, r: Resolver, e: Env)
    requires Shape(c, r)
    ensures Good(c, r, Turn(c, r, e))
  {
    match r.Top().state {
      case Resolv0 => Resolv0Good(c, r, e);
      case Cname0 => Cname0Good(c, r, e);
      case Smart0 => Smart0Good(c, r, e);
      case Done => DoneGood(c, r);
      case _ => StaysOk(c, r, e); TopGood(c, r, Turn(c, r, e));
    }
  }
}
