/**
 Which lookup methods the resolver tries, which names it asks for, and when it gives up: over whole runs, by a log of
 what its frames were seen to do.
 */
module DnsMethods {
  import opened Wrappers
  import opened DnsResolver
  import opened DnsResolverSafe
  import opened DnsResolverRuns
  import DnsReferrals

  // ---------------------------------------------------------------- the lookup order

  /** The method that a letter of the lookup order stands for; other letters are passed over. */
  function MethodOf(letter: char, cache: bool): Option<State> {
    if letter in {'b', 'B'} then Some(Bind)
    else if letter in {'f', 'F'} then Some(File)
    else if letter in {'c', 'C'} && cache then Some(Cache)
    else None
  }

  /** The `k`-th letter stands for a method, and no NUL comes before it. */
  predicate UsableAt(c: Config, which: nat, k: nat) {
    which <= k < |c.lookup| && MethodOf(c.lookup[k], c.cache).Some? && forall i :: which <= i <= k ==>
      c.lookup[i] != '\0'
  }

  /**
   From the `which`-th letter on the first usable one is taken; there is no method exactly if there is no such letter.
   */
  lemma {:induction false} NextMethod(c: Config, which: nat)
    ensures var (s, w) := Method(c, which);
            if s == Servfail then forall k: nat :: !UsableAt(c, which, k)
            else which < w && UsableAt(c, which, w - 1) && MethodOf(c.lookup[w - 1], c.cache) == Some(s)
                 && forall k: nat :: k < w - 1 ==> !UsableAt(c, which, k)
    decreases |c.lookup| - which
  {
    if which < |c.lookup| && c.lookup[which] != '\0' && MethodOf(c.lookup[which], c.cache).None? {
      NextMethod(c, which + 1);
      forall k: nat | which < k ensures UsableAt(c, which, k) <==> UsableAt(c, which + 1, k) {
      }
    }
  }

  /** The methods of the lookup order from the `n`-th letter on. */
  function Order(c: Config, n: nat): seq<State>
    decreases |c.lookup| - n
  {
    if n >= |c.lookup| || c.lookup[n] == '\0' then []
    else
      var m := MethodOf(c.lookup[n], c.cache);
      (if m.Some? then [m.value] else []) + Order(c, n + 1)
  }

  lemma {:induction false} NextInOrder(c: Config, which: nat)
    ensures var (s, w) := Method(c, which);
            if s == Servfail then Order(c, which) == [] else Order(c, which) == [s] + Order(c, w)
    decreases |c.lookup| - which
  {
    if which < |c.lookup| && c.lookup[which] != '\0' && MethodOf(c.lookup[which], c.cache).None? {
      NextInOrder(c, which + 1);
      assert [] + Order(c, which + 1) == Order(c, which + 1);
    }
  }

  // ---------------------------------------------------------------- the log

  /** Of one frame: the states entered from DNS_R_SWITCH, and how often its name servers came to an end. */
  datatype Log = Log(entered: seq<State>, rounds: nat)

  /** The names taken from the search list since it was started over, and whether it was for asking name servers. */
  datatype Names = Names(taken: seq<nat>, asking: bool)

  const NOTHING := Log([], 0)

  /** The log of the turn from `r` to `s`. */
  function Noted(logs: seq<Log>, r: Resolver, s: Resolver): (logs': seq<Log>)
    requires r.Sized() && s.Sized() && |logs| == MAXDEPTH
    ensures |logs'| == MAXDEPTH
  {
    if s.sp > r.sp then logs[s.sp := NOTHING]
    else if s.sp < r.sp then logs
    else
      var l, f, g := logs[r.sp], r.Top(), s.Top();
      logs[r.sp := Log(if f.state == Switch then l.entered + [g.state] else l.entered,
                       if f.state == ForeachNs && g.state != ForeachA then l.rounds + 1 else l.rounds)]
  }

  function NotedNames(a: Names, r: Resolver, s: Resolver): Names
    requires r.Sized()
  {
    if r.sp == 0 && r.Top().state == Bind then Names([], true)
    else if r.sp == 0 && r.Top().state == File then Names([], false)
    else if s.search > r.search then Names(a.taken + [r.search], a.asking)
    else a
  }

  ghost function NamesAfter(c: Config, r: Resolver, a: Names, run: Run): Names
    requires Shape(c, r)
    decreases run
  {
    if run == End then a
    else
      ShapeKept(c, r, run.head);
      var s := Turn(c, r, run.head).r;
      NamesAfter(c, s, NotedNames(a, r, s), run.tail)
  }

  ghost function LogAfter(c: Config, r: Resolver, logs: seq<Log>, run: Run): (logs': seq<Log>)
    requires Shape(c, r) && |logs| == MAXDEPTH
    ensures |logs'| == MAXDEPTH
    decreases run
  {
    if run == End then logs
    else
      ShapeKept(c, r, run.head);
      var s := Turn(c, r, run.head).r;
      LogAfter(c, s, Noted(logs, r, s), run.tail)
  }

  // ---------------------------------------------------------------- what a turn changes

  /** The states in which frame 0 asks name servers for the names of the search list. */
  predicate OnNet(s: State) {
    s in {Search, Hints, Iterate, ForeachNs, Resolv0, Resolv1, ForeachA, QueryA}
  }

  predicate GivesUp(f: Frame, g: Frame) {
    f.state == ForeachNs && g.state != ForeachA
  }

  /**
   The top frame goes on as `g`: its place in the lookup order is kept, and no other state leads to DNS_R_SERVFAIL.
   */
  predicate GoesOn(f: Frame, g: Frame) {
    g.which == f.which
    && g.attempts == f.attempts + (if GivesUp(f, g) then 1 else 0)
    && (g.state == Servfail ==> f.state == Servfail)
    && (f.state == Servfail || f.state == Done ==> g.state == f.state || g.state == Done)
    && (OnNet(g.state) ==> OnNet(f.state) || f.state == Bind)
  }

  /** The next name of the search list is taken at DNS_R_SEARCH. */
  predicate Takes(r: Resolver, s: Resolver)
    requires r.Sized()
  {
    match r.Top().state
    case Bind => if r.sp == 0 then s.search == 0 else s.search == r.search
    case File => r.sp == 0 || s.search == r.search
    case Search => s.search == r.search || s.search == r.search + 1
    case _ => s.search == r.search
  }

  /** A turn that is not at DNS_R_SWITCH. */
  predicate Steady(r: Resolver, s: Resolver)
    requires r.Sized()
  {
    s.Sized()
    && (s.sp == r.sp ==> GoesOn(r.Top(), s.Top()))
    && (s.sp > r.sp ==>
          s.sp == r.sp + 1 && GoesOn(r.Top(), s.stack[r.sp]) && r.Top().state != Done && r.Top().state != Servfail
          && r.Top().state != ForeachNs && s.Top().which == 0 && s.Top().attempts == 0 && s.Top().state == Init)
    && (s.sp < r.sp ==> s.stack == r.stack)
  }

  /** A frame goes on in the same place. */
  predicate Stays(r: Resolver, s: Resolver)
    requires r.Sized()
  {
    s.Sized() && s.sp == r.sp && GoesOn(r.Top(), s.Top())
  }

  lemma MissedIs(r: Resolver, p: nat, s: Resolver)
    requires r.Sized() && s == PutAnswer(PutAnswer(r.(search := r.search + 1), r.sp, Some(p)), r.sp, None)
    ensures s.Sized() && s.sp == r.sp && s.Top() == r.Top().(answer := None) && s.search == r.search + 1
  {
  }

  lemma FileNext(c: Config, r: Resolver, e: Env, k: nat) returns (s: Resolver)
    requires r.Sized() && r.search < c.names && e.ok(2 * k) && e.ok(2 * k + 1) && !e.yes(k)
    ensures s.Sized() && s.sp == r.sp && s.Top() == r.Top().(answer := None) && s.search == r.search + 1
    ensures FileTurns(c, r, e, k) == FileTurns(c, s, e, k + 1)
  {
    s := PutAnswer(PutAnswer(r.(search := r.search + 1), r.sp, Some(e.packet(k))), r.sp, None);
    MissedIs(r, e.packet(k), s);
  }

  lemma FileLast(c: Config, r: Resolver, e: Env, k: nat)
    requires r.Sized() && r.Top().state == File
    requires !(r.search < c.names && e.ok(2 * k) && e.ok(2 * k + 1) && !e.yes(k))
    ensures Stays(r, FileTurns(c, r, e, k).r)
  {
  }

  lemma LookupTakes(c: Config, r: Resolver, e: Env)
    requires r.Sized()
    requires var s := r.Top().state; s in {Init, Glue, Switch, Cache, Submit, Check, Fetch, Bind, Finish}
                                     || (s == File && r.sp > 0)
    ensures Takes(r, Turn(c, r, e).r)
  {
  }

  lemma ServerTakes(c: Config, r: Resolver, e: Env)
    requires r.Sized() && r.Top().state in {Search, Hints, Iterate, ForeachNs, Resolv1, ForeachA}
    ensures Takes(r, Turn(c, r, e).r)
  {
  }

  lemma AnswerTakes(c: Config, r: Resolver, e: Env)
    requires r.Sized() && r.Top().state in {QueryA, Cname1, Smart1, Servfail, Done}
    ensures Takes(r, Turn(c, r, e).r)
  {
  }

  lemma PushTakes(c: Config, r: Resolver, e: Env)
    requires r.Sized() && r.Top().state in {Resolv0, Cname0, Smart0}
    ensures Takes(r, Turn(c, r, e).r)
  {
  }

  lemma TurnTakes(c: Config, r: Resolver, e: Env)
    requires r.Sized()
    ensures Takes(r, Turn(c, r, e).r)
  {
    match r.Top().state {
      case Search | Hints | Iterate | ForeachNs | Resolv1 | ForeachA => ServerTakes(c, r, e);
      case QueryA | Cname1 | Smart1 | Servfail | Done => AnswerTakes(c, r, e);
      case Resolv0 | Cname0 | Smart0 => PushTakes(c, r, e);
      case File => if r.sp > 0 { LookupTakes(c, r, e); }
      case _ => LookupTakes(c, r, e);
    }
  }

  lemma {:induction false} FileSteady(c: Config, r: Resolver, e: Env, k: nat)
    requires r.Sized() && r.Top().state == File
    ensures Stays(r, FileTurns(c, r, e, k).r)
    decreases c.names - r.search
  {
    if r.search < c.names && e.ok(2 * k) && e.ok(2 * k + 1) && !e.yes(k) {
      var s := FileNext(c, r, e, k);
      FileSteady(c, s, e, k + 1);
    } else {
      FileLast(c, r, e, k);
    }
  }

  lemma PushSteady(r: Resolver, up: State, p: nat, s: Resolver, t: Resolver)
    requires r.Sized() && r.sp + 1 < MAXDEPTH && s == Reset(r, r.sp + 1) && t.Sized() && t.stack == s.stack
             && t.sp == r.sp
    requires var st := r.Top().state; (st == Resolv0 || st == Cname0 || st == Smart0) && up != Servfail
                                      && (OnNet(up) ==> OnNet(st))
    ensures Steady(r, s) && Steady(r, PutQuery(s, s.sp + 1, Some(p))) && Steady(r, Push(t, up, p))
  {
    DnsReferrals.ResetIs(r, s);
    DnsReferrals.PushIs(t, up, p, Push(t, up, p));
  }

  lemma Resolv0Steady(r: Resolver, e: Env)
    requires r.Sized() && r.Top().state == Resolv0
    ensures Steady(r, Resolv0Turn(r, e).r)
  {
    if r.sp + 1 < MAXDEPTH {
      var s := Reset(r, r.sp + 1);
      PushSteady(r, Resolv1, e.packet(0), s, s);
    } else {
      assert Stays(r, Go(r, ForeachNs));
    }
  }

  lemma Cname0Steady(r: Resolver, e: Env)
    requires r.Sized() && r.Top().state == Cname0
    ensures Steady(r, Cname0Turn(r, e).r)
  {
    if r.sp + 1 < MAXDEPTH {
      var s := Reset(r, r.sp + 1);
      PushSteady(r, Cname1, e.packet(0), s, s);
    } else {
      assert Stays(r, Go(r, Finish));
    }
  }

  /** Some records are passed over before. */
  lemma Smart0Is(c: Config, r: Resolver, e: Env) returns (n: Resolver, more: nat)
    requires r.Sized() && r.sp + 1 < MAXDEPTH
    ensures n.stack == r.stack && n.sp == r.sp
    ensures var o := Smart0Turn(c, r, e); o == Fail(n) || o == Ask(n, e, more) || o == Jump(n, Done)
  {
    if r.smart > 0 && e.yes(0) {
      n, more := r.(smart := r.smart - 1, returned := r.returned + e.size(0) + 1), 0;
    } else {
      n, more := r.(returned := r.returned + e.size(0)), 1;
    }
  }

  lemma SmartSteady(c: Config, r: Resolver, e: Env)
    requires r.Sized() && r.Top().state == Smart0
    ensures Steady(r, Smart0Turn(c, r, e).r)
  {
    if r.sp + 1 >= MAXDEPTH {
      assert Stays(r, Go(r, Done));
    } else {
      var n, more := Smart0Is(c, r, e);
      SmartIs(c, r, n, e, more, Smart0Turn(c, r, e));
    }
  }

  lemma SmartIs(c: Config, r: Resolver, n: Resolver, e: Env, more: nat, o: Outcome)
    requires r.Sized() && r.sp + 1 < MAXDEPTH && r.Top().state == Smart0 && n.stack == r.stack && n.sp == r.sp
    requires o == Fail(n) || o == Ask(n, e, more) || o == Jump(n, Done)
    ensures Steady(r, o.r)
  {
    if o == Ask(n, e, more) {
      AskSteady(n, e, more);
    } else if o == Jump(n, Done) {
      assert Stays(n, Go(n, Done));
    }
    StackSteady(r, n, o.r);
  }

  lemma AskSteady(n: Resolver, e: Env, more: nat)
    requires n.Sized() && n.sp + 1 < MAXDEPTH && n.Top().state == Smart0
    ensures Steady(n, Ask(n, e, more).r)
  {
    var s := Reset(n, n.sp + 1);
    PushSteady(n, Smart1, e.packet(0), s, s.(returned := s.returned + more));
  }

  /** The counters of the iterator are no part of the frames. */
  lemma StackSteady(r: Resolver, n: Resolver, s: Resolver)
    requires r.Sized() && n.stack == r.stack && n.sp == r.sp
    ensures n.Sized() && (Steady(n, s) ==> Steady(r, s))
  {
  }

  lemma LookupStays(c: Config, r: Resolver, e: Env)
    requires r.Sized()
    requires var s := r.Top().state; s in {Init, Glue, Submit, Check, Bind, Finish} || (s == File && r.sp > 0)
    ensures Stays(r, Turn(c, r, e).r)
  {
  }

  lemma CacheStays(c: Config, r: Resolver, e: Env)
    requires r.Sized() && r.Top().state in {Cache, Fetch}
    ensures Stays(r, Turn(c, r, e).r)
  {
  }

  lemma ServerStays(c: Config, r: Resolver, e: Env)
    requires r.Sized() && r.Top().state in {Search, Hints, Iterate, ForeachNs, Resolv1, ForeachA}
    ensures Stays(r, Turn(c, r, e).r)
  {
  }

  lemma AnswerStays(c: Config, r: Resolver, e: Env)
    requires r.Sized() && r.Top().state in {QueryA, Cname1, Smart1, Servfail}
    ensures Stays(r, Turn(c, r, e).r)
  {
  }

  lemma TurnSteady(c: Config, r: Resolver, e: Env)
    requires r.Sized() && r.Top().state != Switch
    ensures Steady(r, Turn(c, r, e).r)
  {
    match r.Top().state {
      case File => if r.sp == 0 { FileSteady(c, r.(search := 0), e, 0); } else { LookupStays(c, r, e); }
      case Resolv0 => Resolv0Steady(r, e);
      case Cname0 => Cname0Steady(r, e);
      case Smart0 => SmartSteady(c, r, e);
      case Search | Hints | Iterate | ForeachNs | Resolv1 | ForeachA => ServerStays(c, r, e);
      case QueryA | Cname1 | Smart1 | Servfail => AnswerStays(c, r, e);
      case Cache | Fetch => CacheStays(c, r, e);
      case Done =>
      case _ => LookupStays(c, r, e);
    }
  }

  // ---------------------------------------------------------------- over a run

  /**
   The methods entered are those of the lookup order so far; when there was none left, all of them, and then the
   failure.
   */
  predicate InOrder(c: Config, f: Frame, l: Log) {
    (l.entered + Order(c, f.which) == Order(c, 0) && f.state != Servfail)
    || (l.entered == Order(c, 0) + [Servfail] && (f.state == Servfail || f.state == Done))
  }

  ghost predicate Logged(c: Config, r: Resolver, logs: seq<Log>) {
    r.Sized() && |logs| == MAXDEPTH
    && forall i :: 0 <= i <= r.sp ==> InOrder(c, r.stack[i], logs[i]) && logs[i].rounds == r.stack[i].attempts
  }

  lemma SwitchLogged(c: Config, f: Frame, l: Log, g: Frame)
    requires InOrder(c, f, l) && f.state == Switch && (g.state, g.which) == Method(c, f.which)
    ensures InOrder(c, g, Log(l.entered + [g.state], l.rounds))
  {
    NextInOrder(c, f.which);
    NextMethod(c, f.which);
    assert l.entered + ([g.state] + Order(c, g.which)) == l.entered + [g.state] + Order(c, g.which);
    assert l.entered + [] == l.entered;
  }

  lemma NothingLogged(c: Config, f: Frame)
    requires f.which == 0 && f.state == Init
    ensures InOrder(c, f, NOTHING)
  {
    assert [] + Order(c, 0) == Order(c, 0);
  }

  lemma SteadyLogged(c: Config, r: Resolver, logs: seq<Log>, s: Resolver)
    requires Logged(c, r, logs) && r.Top().state != Switch && Steady(r, s) && forall i :: 0 <= i < r.sp ==>
             s.stack[i] == r.stack[i]
    requires r.sp <= s.sp + 1
    ensures Logged(c, s, Noted(logs, r, s))
  {
    if s.sp > r.sp {
      NothingLogged(c, s.Top());
    }
  }

  lemma TurnLogged(c: Config, r: Resolver, logs: seq<Log>, e: Env)
    requires Shape(c, r) && Logged(c, r, logs)
    ensures var s := Turn(c, r, e).r; s.Sized() && Logged(c, s, Noted(logs, r, s))
  {
    ShapeKept(c, r, e);
    var s := Turn(c, r, e).r;
    if r.Top().state == Switch {
      SwitchLogged(c, r.Top(), logs[r.sp], s.Top());
    } else {
      TurnSteady(c, r, e);
      SteadyLogged(c, r, logs, s);
    }
  }

  lemma {:induction false} RunLogged(c: Config, r: Resolver, logs: seq<Log>, run: Run)
    requires Shape(c, r) && Logged(c, r, logs)
    ensures Logged(c, After(c, r, run), LogAfter(c, r, logs, run))
    decreases run
  {
    if run != End {
      ShapeKept(c, r, run.head);
      TurnLogged(c, r, logs, run.head);
      var s := Turn(c, r, run.head).r;
      RunLogged(c, s, Noted(logs, r, s), run.tail);
    }
  }

  ghost function NoLogs(): (logs: seq<Log>)
    ensures |logs| == MAXDEPTH
  {
    seq(MAXDEPTH, _ => NOTHING)
  }

  /**
   In any run from a submitted query a frame enters the methods of the lookup order in their order, none left out, and
   comes to DNS_R_SERVFAIL only when it has entered all of them.
   */
  lemma {:induction false} MethodsInOrder(c: Config, live: set<nat>, run: Run, i: nat)
    requires i <= After(c, Submitted(c, live), run).sp
    ensures var r, log := After(c, Submitted(c, live), run), LogAfter(c, Submitted(c, live), NoLogs(), run);
            r.Sized()
            && (r.stack[i].state == Servfail ==> log[i].entered == Order(c, 0) + [Servfail])
            && (log[i].entered <= Order(c, 0) || log[i].entered == Order(c, 0) + [Servfail])
  {
    var r := Submitted(c, live);
    NothingLogged(c, r.stack[0]);
    RunLogged(c, r, NoLogs(), run);
  }

  /**
   And the name servers of a frame are given up when they came to an end as often as `options.attempts` says, and not
   before.
   */
  lemma {:induction false} RoundsMade(c: Config, live: set<nat>, run: Run, e: Env)
    requires After(c, Submitted(c, live), run).Top().state == ForeachNs
    ensures var r, log := After(c, Submitted(c, live), run), LogAfter(c, Submitted(c, live), NoLogs(), run);
            var s := Turn(c, r, e).r;
            s.sp == r.sp && (s.Top().state == Switch ==> log[r.sp].rounds + 1 >= c.attempts)
            && (s.Top().state == Iterate ==> log[r.sp].rounds + 1 < c.attempts)
  {
    var r := Submitted(c, live);
    NothingLogged(c, r.stack[0]);
    RunLogged(c, r, NoLogs(), run);
  }

  // ---------------------------------------------------------------- the search list

  predicate FromFirst(taken: seq<nat>, n: nat) {
    |taken| == n && forall i :: 0 <= i < n ==> taken[i] == i
  }

  /** Frame 0 asks name servers only for names that were taken from the first on. */
  predicate Listed(r: Resolver, a: Names) {
    r.Sized() && (OnNet(r.stack[0].state) ==> a.asking) && (a.asking ==> FromFirst(a.taken, r.search))
  }

  /** Frame 0 asks name servers after a turn only if it did before, or from DNS_R_BIND. */
  lemma BottomOnNet(c: Config, r: Resolver, e: Env)
    requires Shape(c, r)
    ensures var s := Turn(c, r, e).r;
            s.Sized()
            && (OnNet(s.stack[0].state) ==> OnNet(r.stack[0].state) || (r.sp == 0 && r.Top().state in {Bind, Switch}))
            && (r.sp == 0 && r.Top().state == Switch ==> !OnNet(s.stack[0].state))
  {
    ShapeKept(c, r, e);
    if r.Top().state == Switch {
      MethodIs(c, r.Top().which);
    } else {
      TurnSteady(c, r, e);
    }
  }

  lemma TurnListed(c: Config, r: Resolver, a: Names, e: Env)
    requires Shape(c, r) && Listed(r, a)
    ensures var s := Turn(c, r, e).r; Listed(s, NotedNames(a, r, s))
  {
    BottomOnNet(c, r, e);
    TurnTakes(c, r, e);
  }

  lemma {:induction false} RunListed(c: Config, r: Resolver, a: Names, run: Run)
    requires Shape(c, r) && Listed(r, a)
    ensures Listed(After(c, r, run), NamesAfter(c, r, a, run))
    decreases run
  {
    if run != End {
      ShapeKept(c, r, run.head);
      TurnListed(c, r, a, run.head);
      var s := Turn(c, r, run.head).r;
      RunListed(c, s, NotedNames(a, r, s), run.tail);
    }
  }

  /**
   Whenever the query itself is at DNS_R_SEARCH, the names taken since DNS_R_BIND are the search list from its first
   on, and it goes on to the next method exactly when there are no more.
   */
  lemma {:induction false} NamesInOrder(c: Config, live: set<nat>, run: Run, e: Env)
    requires var r := After(c, Submitted(c, live), run); r.sp == 0 && r.Top().state == Search
    ensures var r, a := After(c, Submitted(c, live), run), NamesAfter(c, Submitted(c, live), Names([], false), run);
            FromFirst(a.taken, r.search) && (Turn(c, r, e).r.stack[0].state == Switch <==> |a.taken| >= c.names)
  {
    RunListed(c, Submitted(c, live), Names([], false), run);
    var r := After(c, Submitted(c, live), run);
    ServerStays(c, r, e);
  }
}
