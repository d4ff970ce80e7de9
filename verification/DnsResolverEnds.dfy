/**
 As long as no referral is followed the resolver does not run on for ever: from some turn on every turn returns to the
 caller. The measure is lexicographic, over the frames from the bottom up, and over what each of them has still to
 try.
 */
module DnsResolverEnds {
  import opened Wrappers
  import opened DnsResolver
  import opened DnsResolverSafe

  // ---------------------------------------------------------------- sequences of numbers that never get higher

  ghost predicate Less(a: seq<nat>, b: seq<nat>) {
    |a| == |b| && exists k :: 0 <= k < |a| && a[k] < b[k] && forall j :: 0 <= j < k ==> a[j] == b[j]
  }

  ghost predicate NotMore(a: seq<nat>, b: seq<nat>) {
    a == b || Less(a, b)
  }

  /** From `i` to the next one nothing gets higher. */
  ghost predicate Falls(f: nat -> seq<nat>, len: nat, i: nat) {
    |f(i)| == len == |f(i + 1)| && NotMore(f(i + 1), f(i))
  }

  /** The first `d` numbers are the same in all of them from `s` on. */
  ghost predicate Fixed(f: nat -> seq<nat>, d: nat, s: nat, i: nat) {
    d <= |f(i)| && d <= |f(s)| && f(i)[..d] == f(s)[..d]
  }

  lemma NextNumber(f: nat -> seq<nat>, len: nat, d: nat, s: nat, i: nat)
    requires d < len && Falls(f, len, i) && Fixed(f, d, s, i) && Fixed(f, d, s, i + 1)
    ensures f(i + 1)[d] <= f(i)[d]
  {
    var a, b := f(i + 1), f(i);
    assert forall j :: 0 <= j < d ==> a[j] == a[..d][j] && b[j] == b[..d][j];
  }

  lemma {:induction false} NumberFalls(f: nat -> seq<nat>, len: nat, d: nat, s: nat, i: nat, j: nat)
    requires d < len && s <= i <= j
    requires forall k: nat {:trigger Falls(f, len, k)} :: k >= s ==> Falls(f, len, k)
    requires forall k: nat {:trigger Fixed(f, d, s, k)} :: k >= s ==> Fixed(f, d, s, k)
    ensures |f(i)| == |f(j)| == len && f(j)[d] <= f(i)[d]
    decreases j - i
  {
    assert Falls(f, len, i) && Falls(f, len, j);
    if i < j {
      NumberFalls(f, len, d, s, i, j - 1);
      assert Falls(f, len, j - 1) && Fixed(f, d, s, j - 1) && Fixed(f, d, s, j);
      NextNumber(f, len, d, s, j - 1);
    }
  }

  ghost predicate Drops(f: nat -> seq<nat>, d: nat, at: nat, i: nat) {
    d < |f(i)| && d < |f(at)| && f(i)[d] < f(at)[d]
  }

  /** A number that never gets larger is the same from some point on. */
  lemma {:induction false} NumberSettles(f: nat -> seq<nat>, len: nat, d: nat, s: nat, at: nat, bound: nat)
    returns (n: nat)
    requires d < len && s <= at && |f(at)| == len && f(at)[d] <= bound
    requires forall k: nat {:trigger Falls(f, len, k)} :: k >= s ==> Falls(f, len, k)
    requires forall k: nat {:trigger Fixed(f, d, s, k)} :: k >= s ==> Fixed(f, d, s, k)
    ensures n >= at && forall i: nat {:trigger Fixed(f, d + 1, n, i)} :: i >= n ==> Fixed(f, d + 1, n, i)
    decreases bound
  {
    if exists i: nat {:trigger Drops(f, d, at, i)} :: i >= at && Drops(f, d, at, i) {
      var i: nat :| i >= at && Drops(f, d, at, i);
      assert Falls(f, len, i);
      n := NumberSettles(f, len, d, s, i, bound - 1);
    } else {
      n := at;
      var d' := d + 1;
      forall i: nat | i >= n ensures Fixed(f, d', n, i) {
        assert !Drops(f, d, at, i);
        NumberFalls(f, len, d, s, n, i);
        assert Fixed(f, d, s, i) && Fixed(f, d, s, n);
        assert f(i)[..d + 1] == f(i)[..d] + [f(i)[d]] && f(n)[..d + 1] == f(n)[..d] + [f(n)[d]];
      }
    }
  }

  /** So is a sequence that never gets higher. */
  lemma {:induction false} Settles(f: nat -> seq<nat>, len: nat, d: nat, s: nat) returns (n: nat)
    requires d <= len
    requires forall k: nat {:trigger Falls(f, len, k)} :: k >= s ==> Falls(f, len, k)
    requires forall k: nat {:trigger Fixed(f, d, s, k)} :: k >= s ==> Fixed(f, d, s, k)
    ensures n >= s && forall i: nat {:trigger Fixed(f, len, n, i)} :: i >= n ==> Fixed(f, len, n, i)
    decreases len - d
  {
    if d == len {
      n := s;
    } else {
      assert Falls(f, len, s);
      var m := NumberSettles(f, len, d, s, s, f(s)[d]);
      n := Settles(f, len, d + 1, m);
    }
  }

  // ---------------------------------------------------------------- what a frame has still to try

  /** The most important number first. */
  datatype Rank = Rank(stage: nat, lookups: nat, block: nat, names: nat, part: nat, attempts: nat, iterate: nat,
                       unglued: nat, servers: nat, addresses: nat, last: nat)

  /** Where there is no frame. */
  const NOTHING := Rank(0, 0, 0, 0, 0, 0, 0, 0, 0, 0, 0)

  predicate Lower(a: Rank, b: Rank) {
    a.stage < b.stage || (a.stage == b.stage && (
    a.lookups < b.lookups || (a.lookups == b.lookups && (
    a.block < b.block || (a.block == b.block && (
    a.names < b.names || (a.names == b.names && (
    a.part < b.part || (a.part == b.part && (
    a.attempts < b.attempts || (a.attempts == b.attempts && (
    a.iterate < b.iterate || (a.iterate == b.iterate && (
    a.unglued < b.unglued || (a.unglued == b.unglued && (
    a.servers < b.servers || (a.servers == b.servers && (
    a.addresses < b.addresses || (a.addresses == b.addresses && a.last < b.last)))))))))))))))))))
  }

  /** A frame that is only finishing. */
  predicate Finishing(s: State) {
    s == Servfail || NeedsAnswer(s)
  }

  predicate Asking(s: State) {
    s == Search || s == Hints || NeedsHints(s)
  }

  function Minus(a: nat, b: nat): nat {
    if a < b then 0 else a - b
  }

  function Block(s: State): nat {
    match s
    case Init => 7
    case Glue => 6
    case Bind => 5
    case File => 5
    case Cache => 5
    case Submit => 4
    case Check => 3
    case Fetch => 2
    case Switch => 0
    case _ => 1
  }

  function Last(s: State): nat {
    match s
    case QueryA => 4
    case ForeachA => 3
    case Resolv0 => 2
    case Resolv1 => 1
    case _ => 0
  }

  function Final(s: State): nat {
    match s
    case Servfail => 4
    case Cname0 => 5
    case Cname1 => 4
    case Finish => 3
    case Smart0 => 2
    case Smart1 => 2
    case _ => 1
  }

  /** The records of the answer still to be followed, and whether the fallback of MX is still to come. */
  function SmartRank(c: Config, s: State, smart: nat, returned: nat): Rank {
    Rank(1, Final(s), if s == Smart0 || s == Smart1 then smart else 0,
         if (s == Smart0 || s == Smart1) && c.mx && returned == 0
           then 1 else 0, if s == Smart1 then 1 else 0, 0, 0, 0, 0, 0, 0)
  }

  function AskRank(c: Config, f: Frame, search: nat): Rank {
    var s := f.state;
    Rank(2, Minus(|c.lookup|, f.which), Block(s), if Asking(s) then Minus(c.names, search) else 0,
         if s == Hints then 2 else if s == Search then 0
                                   else 1, Minus(c.attempts, f.attempts), if s == Iterate then 1 else 0,
         f.unglued, f.servers, f.addresses, Last(s))
  }

  function FrameRank(c: Config, f: Frame, search: nat, smart: nat, returned: nat): Rank {
    if Finishing(f.state) then SmartRank(c, f.state, smart, returned) else AskRank(c, f, search)
  }

  function TopRank(c: Config, r: Resolver, i: nat): Rank
    requires r.Sized() && i < MAXDEPTH
  {
    FrameRank(c, r.stack[i], r.search, r.smart, r.returned)
  }

  predicate NotHigher(a: Rank, b: Rank) {
    a == b || Lower(a, b)
  }

  /** The rank of the frame that was on top gets lower, unless the turn returns; it does not get higher then. */
  ghost predicate Lowers(c: Config, r: Resolver, o: Outcome)
    requires r.Sized()
  {
    o.r.Sized() && o.r.sp >= r.sp && (o.Return? ==> o.r.sp == r.sp)
    && var a, b := TopRank(c, o.r, r.sp), TopRank(c, r, r.sp); if o.Again? then Lower(a, b) else NotHigher(a, b)
  }

  // ---------------------------------------------------------------- turn by turn

  /** DNS_R_INIT, DNS_R_SUBMIT, DNS_R_CHECK and DNS_R_BIND. */
  lemma PlainLowers(c: Config, r: Resolver)
    requires r.Sized()
    ensures r.Top().state == Init ==> Lowers(c, r, Jump(r, Glue))
    ensures r.Top().state == Bind ==> Lowers(c, r, BindTurn(r))
  {
  }

  lemma SubmitLowers(c: Config, r: Resolver, e: Env)
    requires r.Sized()
    ensures r.Top().state == Submit ==> Lowers(c, r, AskTurn(r, e, Check))
    ensures r.Top().state == Check ==> Lowers(c, r, AskTurn(r, e, Fetch))
  {
  }

  lemma GlueLowers(c: Config, r: Resolver, e: Env)
    requires r.Sized() && r.Top().state == Glue
    ensures Lowers(c, r, GlueTurn(r, e))
  {
  }

  lemma {:induction false} MethodMoves(c: Config, which: nat)
    ensures var (s, w) := Method(c, which);
            w >= which && (s != Servfail ==> which < w <= |c.lookup| && (s == Bind || s == File || s == Cache))
    decreases |c.lookup| - which
  {
    if which < |c.lookup| {
      MethodMoves(c, which + 1);
    }
  }

  lemma SwitchLowers(c: Config, r: Resolver)
    requires r.Sized() && r.Top().state == Switch
    ensures Lowers(c, r, SwitchTurn(c, r))
  {
    MethodMoves(c, r.Top().which);
  }

  lemma CachedLowers(c: Config, r: Resolver, e: Env, s: State)
    requires r.Sized() && ((r.Top().state == Cache && s == Submit) || (r.Top().state == Fetch && s == Switch))
    ensures Lowers(c, r, Cached(r, e, s))
  {
  }

  lemma CacheLowers(c: Config, r: Resolver, e: Env)
    requires r.Sized() && r.Top().state == Cache
    ensures Lowers(c, r, CacheTurn(r, e))
  {
    if r.Top().query.None? && e.ok(0) {
      CachedLowers(c, PutQuery(r, r.sp, Some(e.packet(0))), e, Submit);
    } else {
      CachedLowers(c, r, e, Submit);
    }
  }

  /** A turn of the loop that is not the last. */
  lemma FileNext(c: Config, r: Resolver, e: Env, k: nat) returns (s: Resolver)
    requires r.Sized() && r.Top().state == File && r.search < c.names && e.ok(2 * k) && e.ok(2 * k + 1) && !e.yes(k)
    ensures s.Sized() && s.sp == r.sp && s.Top().state == File && s.search == r.search + 1
            && TopRank(c, s, s.sp) == TopRank(c, r, r.sp)
    ensures FileTurns(c, r, e, k) == FileTurns(c, s, e, k + 1)
  {
    s := PutAnswer(PutAnswer(r.(search := r.search + 1), r.sp, Some(e.packet(k))), r.sp, None);
  }

  lemma FileLast(c: Config, r: Resolver, e: Env, k: nat)
    requires r.Sized() && r.Top().state == File && (r.search >= c.names || !e.ok(2 * k) || !e.ok(2 * k + 1) || e.yes(k))
    ensures Lowers(c, r, FileTurns(c, r, e, k))
  {
  }

  lemma {:induction false} FileTurnsLower(c: Config, r: Resolver, e: Env, k: nat)
    requires r.Sized() && r.Top().state == File
    ensures Lowers(c, r, FileTurns(c, r, e, k))
    decreases c.names - r.search
  {
    if r.search < c.names && e.ok(2 * k) && e.ok(2 * k + 1) && !e.yes(k) {
      var s := FileNext(c, r, e, k);
      FileTurnsLower(c, s, e, k + 1);
    } else {
      FileLast(c, r, e, k);
    }
  }

  lemma FileLowers(c: Config, r: Resolver, e: Env)
    requires r.Sized() && r.Top().state == File
    ensures Lowers(c, r, FileTurn(c, r, e))
  {
    if r.sp == 0 {
      FileTurnsLower(c, r.(search := 0), e, 0);
    }
  }

  lemma SearchLowers(c: Config, r: Resolver, e: Env)
    requires r.Sized() && r.Top().state == Search
    ensures Lowers(c, r, SearchTurn(c, r, e))
  {
  }

  lemma HintsLowers(c: Config, r: Resolver, e: Env)
    requires r.Sized() && r.Top().state == Hints
    ensures Lowers(c, r, HintsTurn(r, e))
  {
  }

  lemma IterateLowers(c: Config, r: Resolver, e: Env)
    requires r.Sized() && r.Top().state == Iterate
    ensures Lowers(c, r, IterateTurn(r, e))
  {
  }

  lemma ForeachNsLowers(c: Config, r: Resolver, e: Env)
    requires r.Sized() && r.Top().state == ForeachNs
    ensures Lowers(c, r, ForeachNsTurn(c, r, e))
  {
  }

  lemma ForeachALowers(c: Config, r: Resolver, e: Env)
    requires r.Sized() && r.Top().state == ForeachA
    ensures Lowers(c, r, ForeachATurn(r, e))
  {
  }

  lemma Resolv1Lowers(c: Config, r: Resolver, e: Env)
    requires r.Sized() && r.Top().state == Resolv1
    ensures Lowers(c, r, Resolv1Turn(r, e))
  {
  }

  /** The frame that pushes another one. */
  lemma Descended(r: Resolver, up: State, made: bool, pushed: bool, p: nat, o: Outcome)
    requires r.Sized() && r.sp + 1 < MAXDEPTH
    requires var s := Reset(r, r.sp + 1);
             o == if !made then Fail(s) else if !pushed
                                             then Fail(PutQuery(s, s.sp + 1, Some(p))) else Again(Push(s, up, p))
    ensures o.r.Sized() && o.r.sp == (if o.Again? then r.sp + 1 else r.sp) && o.r.search == r.search
    ensures o.r.smart == r.smart && o.r.returned == r.returned
    ensures o.r.stack[r.sp] == if o.Again? then r.Top().(state := up) else r.Top()
  {
  }

  lemma DescendLowers(c: Config, r: Resolver, up: State, made: bool, pushed: bool, p: nat, o: Outcome)
    requires r.Sized() && r.sp + 1 < MAXDEPTH
    requires (r.Top().state == Resolv0 && up == Resolv1) || (r.Top().state == Cname0 && up == Cname1)
    requires var s := Reset(r, r.sp + 1);
             o == if !made then Fail(s) else if !pushed
                                             then Fail(PutQuery(s, s.sp + 1, Some(p))) else Again(Push(s, up, p))
    ensures Lowers(c, r, o)
  {
    Descended(r, up, made, pushed, p, o);
  }

  lemma Resolv0Lowers(c: Config, r: Resolver, e: Env)
    requires r.Sized() && r.Top().state == Resolv0
    ensures Lowers(c, r, Resolv0Turn(r, e))
  {
    if r.sp + 1 < MAXDEPTH {
      DescendLowers(c, r, Resolv1, e.ok(0), e.ok(1), e.packet(0), Resolv0Turn(r, e));
    }
  }

  /** No referral can be followed in this turn. */
  predicate Refrains(c: Config, r: Resolver)
    requires r.Sized()
  {
    c.recurse ==> r.Top().state != QueryA
  }

  lemma AnsweredLowers(c: Config, r: Resolver, e: Env)
    requires r.Sized() && r.Top().state == QueryA && !c.recurse
    ensures Lowers(c, r, Answered(c, r, e))
  {
  }

  /** A new answer does not count. */
  lemma NewAnswer(c: Config, r: Resolver, p: nat, s: Resolver)
    requires r.Sized() && s == PutAnswer(r, r.sp, Some(p))
    ensures s.Sized() && s.sp == r.sp && s.Top().state == r.Top().state && TopRank(c, s, s.sp) == TopRank(c, r, r.sp)
  {
  }

  lemma LowersOver(c: Config, r: Resolver, s: Resolver, o: Outcome)
    requires r.Sized() && s.Sized() && s.sp == r.sp && TopRank(c, s, s.sp) == TopRank(c, r, r.sp) && Lowers(c, s, o)
    ensures Lowers(c, r, o)
  {
  }

  lemma QueryALowers(c: Config, r: Resolver, e: Env)
    requires r.Sized() && r.Top().state == QueryA && !c.recurse
    ensures Lowers(c, r, QueryATurn(c, r, e))
  {
    if !e.yes(0) && e.ok(0) && e.ok(1) {
      var s := PutAnswer(r, r.sp, Some(e.packet(0)));
      NewAnswer(c, r, e.packet(0), s);
      AnsweredLowers(c, s, e);
      LowersOver(c, r, s, Answered(c, s, e));
    }
  }

  lemma Cname0Lowers(c: Config, r: Resolver, e: Env)
    requires r.Sized() && r.Top().state == Cname0
    ensures Lowers(c, r, Cname0Turn(r, e))
  {
    if r.sp + 1 < MAXDEPTH && e.ok(0) {
      DescendLowers(c, r, Cname1, e.ok(1), e.ok(2), e.packet(0), Cname0Turn(r, e));
    }
  }

  lemma Cname1Lowers(c: Config, r: Resolver, e: Env)
    requires r.Sized() && r.Top().state == Cname1
    ensures Lowers(c, r, Cname1Turn(r, e))
  {
  }

  lemma FinishLowers(c: Config, r: Resolver, e: Env)
    requires r.Sized() && r.Top().state == Finish
    ensures Lowers(c, r, FinishTurn(c, r, e))
  {
  }

  lemma AskLowers(c: Config, r: Resolver, s: Resolver, e: Env, more: nat, o: Outcome)
    requires r.Sized() && r.Top().state == Smart0 && r.sp + 1 < MAXDEPTH && s.Sized() && s.stack == r.stack
             && s.sp == r.sp
    requires (s.smart < r.smart && s.returned > 0)
             || (s.smart == r.smart && c.mx && s.returned == r.returned == 0 && more > 0)
    requires o == Ask(s, e, more) || o == Fail(s)
    ensures Lowers(c, r, o)
  {
  }

  lemma FinalLowers(c: Config, r: Resolver, s: Resolver, o: Outcome)
    requires r.Sized() && r.Top().state == Smart0 && s.stack == r.stack && s.sp == r.sp && o == Jump(s, Done)
    ensures Lowers(c, r, o)
  {
  }

  lemma Smart0Lowers(c: Config, r: Resolver, e: Env)
    requires r.Sized() && r.Top().state == Smart0
    ensures Lowers(c, r, Smart0Turn(c, r, e))
  {
    var o := Smart0Turn(c, r, e);
    if r.sp + 1 >= MAXDEPTH {
      FinalLowers(c, r, r, o);
    } else if r.smart > 0 && e.yes(0) {
      AskLowers(c, r, r.(smart := r.smart - 1, returned := r.returned + e.size(0) + 1), e, 0, o);
    } else {
      var s := r.(returned := r.returned + e.size(0));
      if c.mx && s.returned == 0 {
        AskLowers(c, r, s, e, 1, o);
      } else {
        FinalLowers(c, r, s, o);
      }
    }
  }

  lemma Smart1Lowers(c: Config, r: Resolver, e: Env)
    requires r.Sized() && r.Top().state == Smart1
    ensures Lowers(c, r, Smart1Turn(r, e))
  {
  }

  lemma ServfailLowers(c: Config, r: Resolver, e: Env)
    requires r.Sized() && r.Top().state == Servfail
    ensures Lowers(c, r, ServfailTurn(r, e))
  {
  }

  lemma {:induction false} TurnLowers(c: Config, r: Resolver, e: Env)
    requires r.Sized() && Refrains(c, r) && r.Top().state != Done
    ensures Lowers(c, r, Turn(c, r, e))
  {
    match r.Top().state {
      case Init | Bind => PlainLowers(c, r);
      case Submit | Check => SubmitLowers(c, r, e);
      case Glue => GlueLowers(c, r, e);
      case Switch => SwitchLowers(c, r);
      case File => FileLowers(c, r, e);
      case Cache => CacheLowers(c, r, e);
      case Fetch => CachedLowers(c, r, e, Switch);
      case Search => SearchLowers(c, r, e);
      case Hints => HintsLowers(c, r, e);
      case Iterate => IterateLowers(c, r, e);
      case ForeachNs => ForeachNsLowers(c, r, e);
      case Resolv0 => Resolv0Lowers(c, r, e);
      case Resolv1 => Resolv1Lowers(c, r, e);
      case ForeachA => ForeachALowers(c, r, e);
      case QueryA => QueryALowers(c, r, e);
      case Cname0 => Cname0Lowers(c, r, e);
      case Cname1 => Cname1Lowers(c, r, e);
      case Finish => FinishLowers(c, r, e);
      case Smart0 => Smart0Lowers(c, r, e);
      case Smart1 => Smart1Lowers(c, r, e);
      case Servfail => ServfailLowers(c, r, e);
    }
  }

  // ---------------------------------------------------------------- the frames below

  /** Above the bottom frame no turn takes the search list back, or touches the iterator over the final answer. */
  lemma CountersKeep(c: Config, r: Resolver, e: Env)
    requires r.Sized() && r.sp > 0 && r.Top().state != Smart0
    ensures var s := Turn(c, r, e).r; s.search >= r.search && s.smart == r.smart && s.returned == r.returned
  {
  }

  lemma RankKeeps(c: Config, f: Frame, search: nat, search': nat, smart: nat, returned: nat)
    requires search <= search'
    ensures NotHigher(FrameRank(c, f, search', smart, returned), FrameRank(c, f, search, smart, returned))
  {
  }

  function Ranks(c: Config, r: Resolver): (s: seq<Rank>)
    requires r.Sized()
    ensures |s| == MAXDEPTH
  {
    seq(MAXDEPTH, i requires 0 <= i < MAXDEPTH => if i <= r.sp then TopRank(c, r, i) else NOTHING)
  }

  ghost predicate RowsFall(c: Config, r: Resolver, o: Outcome)
    requires r.Sized()
  {
    o.r.Sized() && var a, b := Ranks(c, o.r), Ranks(c, r);
    (forall i :: 0 <= i < r.sp ==> NotHigher(a[i], b[i]))
    && if o.Again? then Lower(a[r.sp], b[r.sp]) else forall i :: r.sp <= i < MAXDEPTH ==> NotHigher(a[i], b[i])
  }

  lemma BelowFall(c: Config, r: Resolver, o: Outcome)
    requires r.Sized() && o.r.Sized() && r.sp <= o.r.sp + 1 && forall i :: 0 <= i < r.sp ==> o.r.stack[i] == r.stack[i]
    requires r.sp > 0 ==> o.r.search >= r.search && o.r.smart == r.smart && o.r.returned == r.returned
    ensures forall i :: 0 <= i < r.sp ==> NotHigher(Ranks(c, o.r)[i], Ranks(c, r)[i])
  {
    forall i | 0 <= i < r.sp ensures NotHigher(Ranks(c, o.r)[i], Ranks(c, r)[i]) {
      RankKeeps(c, r.stack[i], r.search, o.r.search, r.smart, r.returned);
    }
  }

  lemma RankAt(c: Config, r: Resolver, i: nat)
    requires r.Sized() && i < MAXDEPTH
    ensures Ranks(c, r)[i] == if i <= r.sp then TopRank(c, r, i) else NOTHING
  {
  }

  lemma LowersFall(c: Config, r: Resolver, o: Outcome)
    requires r.Sized() && Lowers(c, r, o)
    requires o.r.Sized() && forall i :: 0 <= i < r.sp ==> NotHigher(Ranks(c, o.r)[i], Ranks(c, r)[i])
    ensures RowsFall(c, r, o)
  {
    forall i: nat | r.sp <= i < MAXDEPTH
      ensures o.Again? || NotHigher(Ranks(c, o.r)[i], Ranks(c, r)[i])
      ensures o.Again? && i == r.sp ==> Lower(Ranks(c, o.r)[i], Ranks(c, r)[i])
    {
      RankAt(c, o.r, i);
      RankAt(c, r, i);
    }
  }

  lemma DoneFalls(c: Config, r: Resolver, o: Outcome)
    requires r.Sized() && o == DoneTurn(r) && r.Top().state == Done
    requires o.r.Sized() && forall i :: 0 <= i < r.sp ==> NotHigher(Ranks(c, o.r)[i], Ranks(c, r)[i])
    ensures RowsFall(c, r, o)
  {
    forall i: nat | r.sp <= i < MAXDEPTH
      ensures o.Again? || NotHigher(Ranks(c, o.r)[i], Ranks(c, r)[i])
      ensures o.Again? && i == r.sp ==> Lower(Ranks(c, o.r)[i], Ranks(c, r)[i])
    {
      RankAt(c, o.r, i);
      RankAt(c, r, i);
    }
  }

  /** Up to the frame that was on top nothing gets higher, and that frame gets lower if the turn does not return. */
  lemma RanksFall(c: Config, r: Resolver, e: Env)
    requires Shape(c, r) && Refrains(c, r)
    ensures RowsFall(c, r, Turn(c, r, e))
  {
    ShapeKept(c, r, e);
    var o := Turn(c, r, e);
    if r.sp > 0 {
      CountersKeep(c, r, e);
    }
    BelowFall(c, r, o);
    if r.Top().state != Done {
      TurnLowers(c, r, e);
      LowersFall(c, r, o);
    } else {
      DoneFalls(c, r, o);
    }
  }

  // ---------------------------------------------------------------- the numbers in one row

  function Numbers(a: Rank): seq<nat> {
    [a.stage, a.lookups, a.block, a.names, a.part, a.attempts, a.iterate, a.unglued, a.servers, a.addresses, a.last]
  }

  function Row(s: seq<Rank>): (r: seq<nat>)
    ensures |r| == 11 * |s|
  {
    if s == [] then [] else Numbers(s[0]) + Row(s[1..])
  }

  lemma LowerIsLess(a: Rank, b: Rank)
    requires Lower(a, b)
    ensures Less(Numbers(a), Numbers(b))
  {
    var x, y := Numbers(a), Numbers(b);
    var k := if x[0] < y[0] then 0 else if x[1] < y[1] then 1 else if x[2] < y[2] then 2 else if x[3] < y[3] then 3
             else if x[4] < y[4] then 4 else if x[5] < y[5] then 5 else if x[6] < y[6] then 6 else if x[7] < y[7] then 7
             else if x[8] < y[8] then 8 else if x[9] < y[9] then 9 else 10;
    assert x[k] < y[k] && forall j :: 0 <= j < k ==> x[j] == y[j];
  }

  lemma LessFront(a: seq<nat>, b: seq<nat>, s: seq<nat>, t: seq<nat>)
    requires Less(a, b) && |s| == |t|
    ensures Less(a + s, b + t)
  {
    var k :| 0 <= k < |a| && a[k] < b[k] && forall j :: 0 <= j < k ==> a[j] == b[j];
    assert (a + s)[k] < (b + t)[k];
  }

  lemma LessBack(a: seq<nat>, s: seq<nat>, t: seq<nat>)
    requires Less(s, t)
    ensures Less(a + s, a + t)
  {
    var k :| 0 <= k < |s| && s[k] < t[k] && forall j :: 0 <= j < k ==> s[j] == t[j];
    assert (a + s)[|a| + k] < (a + t)[|a| + k];
  }

  lemma {:induction false} RowLess(a: seq<Rank>, b: seq<Rank>, k: nat)
    requires |a| == |b| && k < |a| && Lower(a[k], b[k]) && forall i :: 0 <= i < k ==> NotHigher(a[i], b[i])
    ensures Less(Row(a), Row(b))
    decreases |a|
  {
    if Lower(a[0], b[0]) {
      LowerIsLess(a[0], b[0]);
      LessFront(Numbers(a[0]), Numbers(b[0]), Row(a[1..]), Row(b[1..]));
    } else {
      RowLess(a[1..], b[1..], k - 1);
      LessBack(Numbers(a[0]), Row(a[1..]), Row(b[1..]));
    }
  }

  lemma {:induction false} RowNotMore(a: seq<Rank>, b: seq<Rank>)
    requires |a| == |b| && forall i :: 0 <= i < |a| ==> NotHigher(a[i], b[i])
    ensures NotMore(Row(a), Row(b))
    decreases |a|
  {
    if k :| 0 <= k < |a| && Lower(a[k], b[k]) {
      RowLess(a, b, k);
    } else {
      assert a == b;
    }
  }

  // ---------------------------------------------------------------- whole runs

  /** The resolver after `i` turns, in which `es` happens. */
  ghost function At(c: Config, r: Resolver, es: nat -> Env, i: nat): (s: Resolver)
    requires Shape(c, r)
    ensures Shape(c, s)
    decreases i
  {
    if i == 0 then r
    else
      var s := At(c, r, es, i - 1);
      ShapeKept(c, s, es(i - 1));
      Turn(c, s, es(i - 1)).r
  }

  ghost function RowAt(c: Config, r: Resolver, es: nat -> Env, i: nat): seq<nat>
    requires Shape(c, r)
  {
    Row(Ranks(c, At(c, r, es, i)))
  }

  lemma RowFalls(c: Config, r: Resolver, es: nat -> Env, i: nat)
    requires Shape(c, r) && Refrains(c, At(c, r, es, i))
    ensures NotMore(RowAt(c, r, es, i + 1), RowAt(c, r, es, i))
    ensures Turn(c, At(c, r, es, i), es(i)).Again? ==> Less(RowAt(c, r, es, i + 1), RowAt(c, r, es, i))
  {
    var s := At(c, r, es, i);
    RanksFall(c, s, es(i));
    var a, b := Ranks(c, At(c, r, es, i + 1)), Ranks(c, s);
    if Turn(c, s, es(i)).Again? {
      RowLess(a, b, s.sp);
    } else {
      RowNotMore(a, b);
    }
  }

  /** No referral is followed from the state `r` on. */
  ghost predicate NeverRefers(c: Config, r: Resolver, es: nat -> Env)
    requires Shape(c, r)
  {
    forall i: nat {:trigger At(c, r, es, i)} :: Refrains(c, At(c, r, es, i))
  }

  /** From the `n`-th turn on every turn returns to the caller. */
  ghost predicate ReturnsFrom(c: Config, r: Resolver, es: nat -> Env, n: nat)
    requires Shape(c, r)
  {
    forall i: nat {:trigger At(c, r, es, i)} :: i >= n ==> Turn(c, At(c, r, es, i), es(i)).Return?
  }

  lemma FixedAll(a: seq<nat>, b: seq<nat>, b': seq<nat>, len: nat)
    requires |a| == |b| == |b'| == len && a[..len] == b[..len] && a[..len] == b'[..len]
    ensures !Less(b', b)
  {
    assert a[..len] == a && b[..len] == b && b'[..len] == b';
  }

  /** Then only finitely many turns do not return to the caller, whatever happens outside and however often it calls. */
  lemma {:induction false} RunEnds(c: Config, r: Resolver, es: nat -> Env) returns (n: nat)
    requires Shape(c, r) && NeverRefers(c, r, es)
    ensures ReturnsFrom(c, r, es, n)
  {
    var f := (i: nat) => RowAt(c, r, es, i);
    forall i: nat ensures Falls(f, 88, i) {
      RowFalls(c, r, es, i);
    }
    n := Settles(f, 88, 0, 0);
    forall i: nat | i >= n ensures Turn(c, At(c, r, es, i), es(i)).Return? {
      assert Fixed(f, 88, n, i) && Fixed(f, 88, n, i + 1);
      FixedAll(f(n), f(i), f(i + 1), 88);
      RowFalls(c, r, es, i);
    }
  }
}
