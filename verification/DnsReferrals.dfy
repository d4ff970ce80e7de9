/**
 When the resolver comes to an end with `options.recurse` on: exactly when no name server can be asked at all, as a
 referral may lead to another one for ever.
 */
module DnsReferrals {
  import opened Wrappers
  import opened DnsResolver
  import opened DnsResolverSafe
  import opened DnsResolverOwned
  import opened DnsResolverRuns
  import opened DnsResolverEnds

  const NUL: char := 0 as char

  /** The lookup order is read as far as `which`: it is not ended by a NUL before. */
  predicate Reached(c: Config, which: nat) {
    forall i :: 0 <= i < which && i < |c.lookup| ==> c.lookup[i] != NUL
  }

  /** From `which` on the lookup order comes to asking name servers. */
  predicate BindAhead(c: Config, which: nat) {
    exists k :: which <= k < |c.lookup| && (c.lookup[k] == 'b' || c.lookup[k] == 'B') && Reached(c, k)
  }

  /** And to the cache, if there is one. */
  predicate CacheAhead(c: Config, which: nat) {
    c.cache && exists k :: which <= k < |c.lookup| && (c.lookup[k] == 'c' || c.lookup[k] == 'C') && Reached(c, k)
  }

  /**
   The runs that need not end: recursion is on, the lookup order comes to asking name servers, and there is a name to
   ask for, of the search list or, when an answer of the cache is to be completed, one that it mentions.
   */
  predicate Endless(c: Config) {
    c.recurse && BindAhead(c, 0) && (c.names > 0 || (c.smart && CacheAhead(c, 0)))
  }

  lemma {:induction false} MethodIs(c: Config, which: nat)
    requires Reached(c, which)
    ensures var (s, w) := Method(c, which);
            Reached(c, w) && w >= which && (s == Servfail || s == Bind || s == File || s == Cache)
            && (s == Bind ==> BindAhead(c, which)) && (s == Cache ==> CacheAhead(c, which))
            && (BindAhead(c, which) && s != Bind ==> s != Servfail && BindAhead(c, w))
            && (CacheAhead(c, which) && s != Cache ==> s != Servfail && CacheAhead(c, w))
    decreases |c.lookup| - which
  {
    if which < |c.lookup| && c.lookup[which] != NUL {
      var ch := c.lookup[which];
      if !(ch == 'b' || ch == 'B' || ch == 'f' || ch == 'F' || ((ch == 'c' || ch == 'C') && c.cache)) {
        MethodIs(c, which + 1);
      }
    }
  }

  // ---------------------------------------------------------------- runs that ask no name server

  /** The states in which no name server is asked. */
  predicate OffNet(s: State) {
    s == Init || s == Glue || s == Switch || s == File || s == Cache || s == Submit || s == Check || s == Fetch
    || s == Cname0 || s == Cname1 || s == Finish || s == Smart0 || s == Smart1 || s == Done || s == Servfail
  }

  predicate QuietFrame(c: Config, f: Frame) {
    OffNet(f.state) && Reached(c, f.which)
  }

  /** The lookup order does not come to asking name servers. */
  predicate Quiet(c: Config, r: Resolver) {
    r.Sized() && !BindAhead(c, 0) && forall i :: 0 <= i <= r.sp ==> QuietFrame(c, r.stack[i])
  }

  /** The top frame goes on off the net, or one is put above it, or it is left. */
  predicate QuietTurn(c: Config, r: Resolver, o: Outcome)
    requires r.Sized()
  {
    o.r.Sized() && r.sp <= o.r.sp + 1 <= r.sp + 2
    && (o.r.sp >= r.sp ==> QuietFrame(c, o.r.stack[r.sp]))
    && (o.r.sp > r.sp ==> QuietFrame(c, o.r.Top()))
  }

  lemma {:induction false} FileQuiet(c: Config, r: Resolver, e: Env, k: nat)
    requires r.Sized() && QuietFrame(c, r.Top())
    ensures QuietTurn(c, r, FileTurns(c, r, e, k))
    decreases c.names - r.search
  {
    if r.search < c.names && e.ok(2 * k) && e.ok(2 * k + 1) && !e.yes(k) {
      var t := PutAnswer(r.(search := r.search + 1), r.sp, Some(e.packet(k)));
      FileQuiet(c, PutAnswer(t, t.sp, None), e, k + 1);
    }
  }

  lemma SwitchQuiet(c: Config, r: Resolver)
    requires r.Sized() && QuietFrame(c, r.Top()) && !BindAhead(c, 0)
    ensures QuietTurn(c, r, SwitchTurn(c, r))
  {
    MethodIs(c, r.Top().which);
  }

  lemma CacheQuiet(c: Config, r: Resolver, e: Env)
    requires r.Sized() && QuietFrame(c, r.Top())
    ensures QuietTurn(c, r, CacheTurn(r, e)) && QuietTurn(c, r, Cached(r, e, Switch))
  {
  }

  lemma ResetIs(r: Resolver, s: Resolver)
    requires r.Sized() && r.sp + 1 < MAXDEPTH && s == Reset(r, r.sp + 1)
    ensures s.sp == r.sp && s.stack == r.stack[r.sp + 1 := EMPTY] && s.smart == r.smart
  {
    assert s.stack == r.stack[r.sp + 1 := EMPTY];
  }

  lemma PushIs(r: Resolver, s: State, p: nat, t: Resolver)
    requires r.Sized() && r.sp + 1 < MAXDEPTH && t == Push(r, s, p)
    ensures t.sp == r.sp + 1 && t.Top() == r.stack[r.sp + 1].(query := Some(p), state := Init)
    ensures t.stack[r.sp] == r.Top().(state := s)
  {
  }

  lemma Cname0Quiet(c: Config, r: Resolver, e: Env)
    requires r.Sized() && QuietFrame(c, r.Top())
    ensures QuietTurn(c, r, Cname0Turn(r, e))
  {
    if r.sp + 1 < MAXDEPTH && e.ok(0) {
      var s := Reset(r, r.sp + 1);
      ResetIs(r, s);
      PushIs(s, Cname1, e.packet(0), Push(s, Cname1, e.packet(0)));
    }
  }

  lemma AskQuiet(c: Config, r: Resolver, e: Env, more: nat)
    requires r.Sized() && r.sp + 1 < MAXDEPTH && QuietFrame(c, r.Top())
    ensures QuietTurn(c, r, Ask(r, e, more))
  {
    var s := Reset(r, r.sp + 1);
    ResetIs(r, s);
    var t := s.(returned := s.returned + more);
    PushIs(t, Smart1, e.packet(0), Push(t, Smart1, e.packet(0)));
  }

  lemma QuietOver(c: Config, r: Resolver, s: Resolver, o: Outcome)
    requires r.Sized() && s.Sized() && s.sp == r.sp && QuietTurn(c, s, o)
    ensures QuietTurn(c, r, o)
  {
  }

  /** The records of the answer that lead to a lookup, or to none, are counted before. */
  lemma CountedQuiet(c: Config, r: Resolver, e: Env, s: Resolver, more: nat, o: Outcome)
    requires r.Sized() && QuietFrame(c, r.Top()) && s.stack == r.stack && s.sp == r.sp && r.sp + 1 < MAXDEPTH
    requires o == Fail(s) || o == Ask(s, e, more) || o == Jump(s, Done)
    ensures QuietTurn(c, r, o)
  {
    if o == Ask(s, e, more) {
      AskQuiet(c, s, e, more);
      QuietOver(c, r, s, o);
    }
  }

  lemma Smart0Quiet(c: Config, r: Resolver, e: Env)
    requires r.Sized() && QuietFrame(c, r.Top())
    ensures QuietTurn(c, r, Smart0Turn(c, r, e))
  {
    var o := Smart0Turn(c, r, e);
    if r.sp + 1 < MAXDEPTH {
      if r.smart > 0 && e.yes(0) {
        CountedQuiet(c, r, e, r.(smart := r.smart - 1, returned := r.returned + e.size(0) + 1), 0, o);
      } else {
        CountedQuiet(c, r, e, r.(returned := r.returned + e.size(0)), 1, o);
      }
    }
  }

  lemma TurnQuiet(c: Config, r: Resolver, e: Env)
    requires Quiet(c, r)
    ensures QuietTurn(c, r, Turn(c, r, e))
  {
    match r.Top().state {
      case Switch => SwitchQuiet(c, r);
      case File => if r.sp == 0 { FileQuiet(c, r.(search := 0), e, 0); }
      case Cache | Fetch => CacheQuiet(c, r, e);
      case Cname0 => Cname0Quiet(c, r, e);
      case Smart0 => Smart0Quiet(c, r, e);
      case _ =>
    }
  }

  lemma StaysQuiet(c: Config, r: Resolver, o: Outcome)
    requires Quiet(c, r) && QuietTurn(c, r, o) && Good(c, r, o)
    ensures Quiet(c, o.r)
  {
  }

  lemma QuietKept(c: Config, r: Resolver, e: Env)
    requires Quiet(c, r) && Shape(c, r)
    ensures Quiet(c, Turn(c, r, e).r)
  {
    TurnQuiet(c, r, e);
    ShapeKept(c, r, e);
    StaysQuiet(c, r, Turn(c, r, e));
  }

  // ---------------------------------------------------------------- runs without a name to ask for

  /** The states of the bottom frame when the search list is empty; with an answer of the cache it is done. */
  predicate Nameless(c: Config, r: Resolver) {
    r.Sized() && r.sp == 0 && c.names == 0 && !(c.smart && CacheAhead(c, 0)) && Reached(c, r.Top().which)
    && var s := r.Top().state;
       s == Init || s == Glue || s == Switch || s == File || s == Bind || s == Search || s == Done || s == Servfail
       || (!c.smart && (s == Cache || s == Submit || s == Check || s == Fetch || s == Finish))
  }

  lemma NamelessKept(c: Config, r: Resolver, e: Env)
    requires Nameless(c, r)
    ensures Nameless(c, Turn(c, r, e).r)
  {
    if r.Top().state == Switch {
      MethodIs(c, r.Top().which);
    }
  }

  // ---------------------------------------------------------------- runs that end

  /** No referral is followed from here on, for one of three reasons. */
  predicate Bounded(c: Config, r: Resolver) {
    !c.recurse || Quiet(c, r) || Nameless(c, r)
  }

  lemma BoundedRefrains(c: Config, r: Resolver)
    requires r.Sized() && Bounded(c, r)
    ensures Refrains(c, r)
  {
  }

  lemma BoundedKept(c: Config, r: Resolver, e: Env)
    requires Shape(c, r) && Bounded(c, r)
    ensures Bounded(c, Turn(c, r, e).r)
  {
    if Quiet(c, r) {
      QuietKept(c, r, e);
    } else if Nameless(c, r) {
      NamelessKept(c, r, e);
    }
  }

  lemma {:induction false} StaysBounded(c: Config, r: Resolver, es: nat -> Env, i: nat)
    requires Shape(c, r) && Bounded(c, r)
    ensures Bounded(c, At(c, r, es, i))
    decreases i
  {
    if i > 0 {
      StaysBounded(c, r, es, i - 1);
      BoundedKept(c, At(c, r, es, i - 1), es(i - 1));
    }
  }

  lemma {:induction false} BoundedEnds(c: Config, r: Resolver, es: nat -> Env) returns (n: nat)
    requires Shape(c, r) && Bounded(c, r)
    ensures ReturnsFrom(c, r, es, n)
  {
    forall i: nat ensures Refrains(c, At(c, r, es, i)) {
      StaysBounded(c, r, es, i);
      BoundedRefrains(c, At(c, r, es, i));
    }
    n := RunEnds(c, r, es);
  }

  /** A submitted query is one for which that holds, unless the run need not end. */
  lemma StartBounded(c: Config, live: set<nat>)
    ensures Bounded(c, Submitted(c, live)) <==> !Endless(c)
  {
  }

  // ---------------------------------------------------------------- a run that does not end

  /** A number above all those in `live`. */
  ghost function Above(live: set<nat>): (b: nat)
    ensures forall x :: x in live ==> x < b
  {
    if live == {} then 0
    else
      var x :| x in live;
      var b := Above(live - {x});
      assert forall y :: y in live ==> y == x || y in live - {x};
      if b <= x then x + 1 else b
  }

  /** Nothing is known, the cache apart where it is needed, and every server refers to another one. */
  predicate Says(c: Config, depth: nat, s: State, k: nat) {
    if c.names == 0 && depth == 0 then (s == Cache && k <= 1) || (s == Smart0 && k == 0)
    else ((s == ForeachNs || s == ForeachA) && k == 0) || (s == QueryA && k == 3)
  }

  /** What happens in the next turn; every packet is new. */
  ghost function Play(c: Config, r: Resolver): Env
    requires r.Sized()
  {
    var (depth, s, next) := (r.sp, r.Top().state, Above(r.live));
    Env((k: nat) => true, (k: nat) => Says(c, depth, s, k), (k: nat) => 1, (k: nat) => next + k)
  }

  /** On the way to a name server, or asking one. */
  predicate Asks(c: Config, r: Resolver)
    requires r.Sized()
  {
    var f := r.Top();
    match f.state
    case Init | Glue | Switch | File | Cache | Submit | Check | Fetch => Reached(c, f.which) && BindAhead(c, f.which)
    case Bind => c.names > 0 || r.sp > 0
    case Hints | Iterate | QueryA => true
    case Search => r.search < c.names
    case ForeachNs => f.servers == 1
    case ForeachA => f.addresses == 1
    case _ => false
  }

  /** On the way to an answer of the cache, and then to a name that it mentions. */
  predicate Completes(c: Config, r: Resolver)
    requires r.Sized()
  {
    var f := r.Top();
    match f.state
    case Init | Glue | Switch | File | Bind | Search => Reached(c, f.which) && CacheAhead(c, f.which)
    case Cache | Finish => true
    case Smart0 => r.smart == 1
    case _ => false
  }

  predicate Leads(c: Config, r: Resolver) {
    r.Sized() && if c.names == 0 && r.sp == 0 then Completes(c, r) else Asks(c, r) && (r.sp == 0 || r.sp == 1)
  }

  /** It happens so. */
  ghost predicate Plays(c: Config, r: Resolver, e: Env)
    requires r.Sized()
  {
    (forall k: nat :: e.ok(k)) && (forall k: nat :: e.size(k) == 1)
    && forall k: nat :: e.yes(k) == Says(c, r.sp, r.Top().state, k)
  }

  lemma PlayPlays(c: Config, r: Resolver)
    requires r.Sized()
    ensures Plays(c, r, Play(c, r))
  {
  }

  /** The turn does not return, and the run is on its way. */
  predicate GoesOn(c: Config, o: Outcome) {
    o.Again? && Leads(c, o.r)
  }

  lemma {:induction false} FileFails(c: Config, r: Resolver, e: Env, k: nat)
    requires r.Sized() && (forall i: nat :: e.ok(i)) && (forall i: nat :: !e.yes(i))
    ensures var o := FileTurns(c, r, e, k);
            o.Again? && o.r.Sized() && o.r.sp == r.sp && o.r.Top().state == Switch && o.r.Top().which == r.Top().which
    decreases c.names - r.search
  {
    if r.search < c.names {
      var t := PutAnswer(r.(search := r.search + 1), r.sp, Some(e.packet(k)));
      FileFails(c, PutAnswer(t, t.sp, None), e, k + 1);
    }
  }

  lemma FileLeads(c: Config, r: Resolver, e: Env)
    requires Leads(c, r) && r.Top().state == File && Plays(c, r, e)
    ensures GoesOn(c, FileTurn(c, r, e))
  {
    assert forall i: nat :: !e.yes(i);
    if r.sp == 0 {
      FileFails(c, r.(search := 0), e, 0);
    } else {
      assert e.ok(0) && !e.yes(0);
    }
  }

  lemma SwitchLeads(c: Config, r: Resolver)
    requires Leads(c, r) && r.Top().state == Switch
    ensures GoesOn(c, SwitchTurn(c, r))
  {
    MethodIs(c, r.Top().which);
  }

  lemma GlueLeads(c: Config, r: Resolver, e: Env)
    requires Leads(c, r) && r.Top().state == Glue && Plays(c, r, e)
    ensures GoesOn(c, GlueTurn(r, e))
  {
    assert !e.yes(0);
  }

  /** An answer of the cache where it is needed, and else none. */
  lemma CachedLeads(c: Config, r: Resolver, e: Env, s: State)
    requires Leads(c, r) && (r.Top().state == Cache || r.Top().state == Fetch) && (s == Submit || s == Switch)
    requires e.ok(1) && if c.names == 0 && r.sp == 0 then e.yes(0) && e.yes(1) else !e.yes(0)
    ensures GoesOn(c, Cached(r, e, s))
  {
  }

  lemma CacheLeads(c: Config, r: Resolver, e: Env)
    requires Leads(c, r) && (r.Top().state == Cache || r.Top().state == Fetch) && Plays(c, r, e)
    ensures GoesOn(c, if r.Top().state == Cache then CacheTurn(r, e) else Cached(r, e, Switch))
  {
    assert e.ok(0) && e.ok(1);
    assert if c.names == 0 && r.sp == 0 then e.yes(0) && e.yes(1) else !e.yes(0);
    CachedLeads(c, r, e, Switch);
    if r.Top().state == Cache {
      if r.Top().query.Some? {
        CachedLeads(c, r, e, Submit);
      } else {
        CachedLeads(c, PutQuery(r, r.sp, Some(e.packet(0))), e, Submit);
      }
    }
  }

  lemma SearchLeads(c: Config, r: Resolver, e: Env)
    requires Leads(c, r) && r.Top().state == Search && Plays(c, r, e)
    ensures GoesOn(c, SearchTurn(c, r, e))
  {
    assert e.ok(0) && e.ok(1);
  }

  lemma HintsLead(c: Config, r: Resolver, e: Env)
    requires Leads(c, r) && r.Top().state == Hints && Plays(c, r, e)
    ensures GoesOn(c, HintsTurn(r, e))
  {
    assert e.ok(0);
  }

  lemma IterateLeads(c: Config, r: Resolver, e: Env)
    requires Leads(c, r) && r.Top().state == Iterate && Plays(c, r, e)
    ensures GoesOn(c, IterateTurn(r, e))
  {
    assert e.size(0) == 1;
  }

  lemma ForeachNsLeads(c: Config, r: Resolver, e: Env)
    requires Leads(c, r) && r.Top().state == ForeachNs && Plays(c, r, e)
    ensures GoesOn(c, ForeachNsTurn(c, r, e))
  {
    assert e.yes(0) && e.size(0) == 1;
  }

  lemma ForeachALeads(c: Config, r: Resolver, e: Env)
    requires Leads(c, r) && r.Top().state == ForeachA && Plays(c, r, e)
    ensures GoesOn(c, ForeachATurn(r, e))
  {
    assert e.yes(0) && e.ok(0) && e.ok(1);
  }

  lemma ReferralLeads(c: Config, r: Resolver, e: Env)
    requires Leads(c, r) && r.Top().state == QueryA && c.recurse && Plays(c, r, e)
    ensures GoesOn(c, QueryATurn(c, r, e))
  {
    assert !e.yes(0) && !e.yes(1) && !e.yes(2) && e.yes(3) && e.ok(0) && e.ok(1) && e.ok(2);
  }

  lemma FinishLeads(c: Config, r: Resolver, e: Env)
    requires Leads(c, r) && r.Top().state == Finish && Plays(c, r, e) && c.smart
    ensures GoesOn(c, FinishTurn(c, r, e))
  {
    assert e.size(0) == 1;
  }

  lemma Smart0Leads(c: Config, r: Resolver, e: Env)
    requires Leads(c, r) && r.Top().state == Smart0 && Plays(c, r, e) && BindAhead(c, 0)
    ensures GoesOn(c, Smart0Turn(c, r, e))
  {
    assert e.ok(0) && e.ok(1) && e.yes(0);
    var s := r.(smart := r.smart - 1, returned := r.returned + e.size(0) + 1);
    var t := Reset(s, 1);
    ResetIs(s, t);
    PushIs(t, Smart1, e.packet(0), Push(t, Smart1, e.packet(0)));
  }

  lemma TurnLeads(c: Config, r: Resolver, e: Env)
    requires Leads(c, r) && Endless(c) && Plays(c, r, e)
    ensures GoesOn(c, Turn(c, r, e))
  {
    match r.Top().state {
      case Glue => GlueLeads(c, r, e);
      case Switch => SwitchLeads(c, r);
      case File => FileLeads(c, r, e);
      case Cache | Fetch => CacheLeads(c, r, e);
      case Submit | Check => assert e.ok(0);
      case Search => SearchLeads(c, r, e);
      case Hints => HintsLead(c, r, e);
      case Iterate => IterateLeads(c, r, e);
      case ForeachNs => ForeachNsLeads(c, r, e);
      case ForeachA => ForeachALeads(c, r, e);
      case QueryA => ReferralLeads(c, r, e);
      case Finish => FinishLeads(c, r, e);
      case Smart0 => Smart0Leads(c, r, e);
      case Init | Bind =>
    }
  }

  lemma PlayIsNew(c: Config, r: Resolver)
    requires r.Sized()
    ensures New(r, Play(c, r))
  {
  }

  ghost function Next(c: Config, r: Resolver): (s: Resolver)
    requires Shape(c, r)
    ensures Shape(c, s)
  {
    ShapeKept(c, r, Play(c, r));
    Turn(c, r, Play(c, r)).r
  }

  lemma NextLeads(c: Config, r: Resolver)
    requires Shape(c, r) && Leads(c, r) && Endless(c)
    ensures Leads(c, Next(c, r)) && New(r, Play(c, r)) && Turn(c, r, Play(c, r)).Again?
  {
    PlayPlays(c, r);
    PlayIsNew(c, r);
    TurnLeads(c, r, Play(c, r));
  }

  /** Where that run stands after `i` turns. */
  ghost function Stand(c: Config, live: set<nat>, i: nat): (r: Resolver)
    ensures Shape(c, r)
  {
    if i == 0 then Submitted(c, live) else Next(c, Stand(c, live, i - 1))
  }

  lemma StartLeads(c: Config, live: set<nat>)
    requires Endless(c)
    ensures Leads(c, Submitted(c, live))
  {
  }

  lemma {:induction false} StandLeads(c: Config, live: set<nat>, i: nat)
    requires Endless(c)
    ensures Leads(c, Stand(c, live, i))
  {
    if i == 0 {
      StartLeads(c, live);
    } else {
      StandLeads(c, live, i - 1);
      NextLeads(c, Stand(c, live, i - 1));
    }
  }

  lemma NextIs(c: Config, r: Resolver, e: Env)
    requires Shape(c, r) && e == Play(c, r)
    ensures Turn(c, r, e).r == Next(c, r)
  {
  }

  /** The `i`-th turn leads from one of the states to the next. */
  ghost predicate Steps(c: Config, st: nat -> Resolver, es: nat -> Env, i: nat) {
    Shape(c, st(i)) && Turn(c, st(i), es(i)).r == st(i + 1)
  }

  lemma NextAt(c: Config, r: Resolver, es: nat -> Env, i: nat, s: Resolver)
    requires Shape(c, r) && At(c, r, es, i) == s
    ensures At(c, r, es, i + 1) == Turn(c, s, es(i)).r
  {
  }

  lemma {:induction false} RunsThrough(c: Config, r: Resolver, es: nat -> Env, st: nat -> Resolver, i: nat)
    requires Shape(c, r) && st(0) == r && forall k: nat :: Steps(c, st, es, k)
    ensures At(c, r, es, i) == st(i)
    decreases i
  {
    if i > 0 {
      RunsThrough(c, r, es, st, i - 1);
      NextAt(c, r, es, i - 1, st(i - 1));
      assert Steps(c, st, es, i - 1);
    }
  }

  /** The turn gets new packets and does not return. */
  ghost predicate GoesOnNew(c: Config, r: Resolver, e: Env) {
    r.Sized() && New(r, e) && Turn(c, r, e).Again?
  }

  lemma StandSteps(c: Config, live: set<nat>, st: nat -> Resolver, es: nat -> Env, i: nat)
    requires Endless(c) && st(i) == Stand(c, live, i) && st(i + 1) == Next(c, st(i)) && es(i) == Play(c, st(i))
    ensures Steps(c, st, es, i) && GoesOnNew(c, st(i), es(i))
  {
    StandLeads(c, live, i);
    NextLeads(c, st(i));
  }

  lemma Performs(c: Config, live: set<nat>) returns (st: nat -> Resolver, es: nat -> Env)
    requires Endless(c)
    ensures st(0) == Submitted(c, live) && forall i: nat :: Steps(c, st, es, i) && GoesOnNew(c, st(i), es(i))
  {
    st := (i: nat) => Stand(c, live, i);
    es := (i: nat) => Play(c, Stand(c, live, i));
    forall i: nat ensures Steps(c, st, es, i) && GoesOnNew(c, st(i), es(i)) {
      StandSteps(c, live, st, es, i);
    }
  }

  /** Every packet is new when it comes. */
  ghost predicate NewAlong(c: Config, r: Resolver, es: nat -> Env)
    requires Shape(c, r)
  {
    forall i: nat {:trigger At(c, r, es, i)} :: New(At(c, r, es, i), es(i))
  }

  /** From a submitted query on, with new packets, no turn ever returns. */
  lemma {:induction false} ReferralsGoOn(c: Config, live: set<nat>) returns (es: nat -> Env)
    requires Endless(c)
    ensures var r := Submitted(c, live);
            NewAlong(c, r, es) && forall i: nat {:trigger At(c, r, es, i)} :: Turn(c, At(c, r, es, i), es(i)).Again?
  {
    var r := Submitted(c, live);
    var st: nat -> Resolver;
    st, es := Performs(c, live);
    forall i: nat ensures New(At(c, r, es, i), es(i)) && Turn(c, At(c, r, es, i), es(i)).Again? {
      RunsThrough(c, r, es, st, i);
      assert GoesOnNew(c, st(i), es(i));
    }
  }

  /** Whatever happens outside, a submitted query comes to a turn from which on every turn returns. */
  ghost predicate AlwaysEnds(c: Config, live: set<nat>) {
    forall es: nat -> Env :: NewAlong(c, Submitted(c, live), es) ==> exists n: nat ::
                                                                     ReturnsFrom(c, Submitted(c, live), es, n)
  }

  /** That is so exactly when no referral can be followed, or none can come to be asked for. */
  lemma {:induction false} EndsUnlessEndless(c: Config, live: set<nat>)
    ensures AlwaysEnds(c, live) <==> !Endless(c)
  {
    var r := Submitted(c, live);
    if Endless(c) {
      var es := ReferralsGoOn(c, live);
      forall n: nat ensures !ReturnsFrom(c, r, es, n) {
        assert Turn(c, At(c, r, es, n), es(n)).Again?;
      }
    } else {
      forall es: nat -> Env | NewAlong(c, r, es) ensures exists n: nat :: ReturnsFrom(c, r, es, n) {
        var n := BoundedEnds(c, r, es);
      }
    }
  }
}
