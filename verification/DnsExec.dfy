/**
 `dns_res_exec`, on the resolver's stack in place: one method for each of its states, with its assertions, and the
 loop around them. Every `free` is of a packet that is allocated.
 */
module DnsExec {
  import opened Wrappers
  import opened DnsResolver
  import opened DnsResolverOwned
  import opened DnsResolverSafe
  import opened DnsResolverEnds
  import opened DnsReferrals
  import DnsResolverRuns

  /** How a turn ends: at the label `exec` again, or with a return. */
  datatype Signal = Loop | Failed | Finished

  /** The last of `n` turns came to `o`. */
  ghost predicate Ended(c: Config, r: Resolver, es: nat -> Env, n: nat, o: Outcome)
    requires Shape(c, r)
  {
    n > 0 && Turn(c, At(c, r, es, n - 1), es(n - 1)) == o
  }

  class Machine {
    const config: Config
    const stack: array<Frame>
    var sp: nat
    var search: nat
    var smart: nat
    var returned: nat
    ghost var live: set<nat>

    ghost predicate Sized()
      reads this
    {
      stack.Length == MAXDEPTH && sp < MAXDEPTH
    }

    ghost function View(): Resolver
      reads this, stack
    {
      Resolver(stack[..], sp, search, smart, returned, live)
    }

    /** At the label `exec`. */
    ghost predicate Valid()
      reads this, stack
    {
      Shape(config, View()) && Owned(View())
    }

    ghost function Result(s: Signal): Outcome
      reads this, stack
    {
      match s
      case Loop => Again(View())
      case Failed => Return(View(), false)
      case Finished => Return(View(), true)
    }

    /** The state `s`, with an environment that supplies new packets. */
    ghost predicate In(s: State, e: Env)
      reads this, stack
    {
      Valid() && New(View(), e) && stack[sp].state == s
    }

    /** A resolver to which a query was submitted. */
    constructor (config: Config, ghost live: set<nat>)
      ensures Valid() && View() == DnsResolverRuns.Submitted(config, live) && this.config == config && fresh(stack)
    {
      this.config := config;
      stack := new Frame[MAXDEPTH](_ => EMPTY);
      sp, search, smart, returned, this.live := 0, 0, 0, 0, live;
      new;
      assert stack[..] == seq(MAXDEPTH, i => EMPTY);
      DnsResolverRuns.StartsWell(config, live);
    }

    /** `dns_res_fetch`: the answer is the caller's from now on. */
    method FetchAnswer() returns (answer: Option<nat>)
      requires Sized()
      modifies stack
      ensures (View(), answer) == DnsResolverRuns.Fetched(old(View()))
    {
      if stack[0].state != Done {
        return None;
      }
      answer := stack[0].answer;
      stack[0] := stack[0].(answer := None);
    }

    // -------------------------------------------------------------- changes of a frame

    method Put(f: Frame)
      requires Sized() && Owned(View()) && f.query == stack[sp].query && f.answer == stack[sp].answer
               && f.hints == stack[sp].hints
      modifies stack
      ensures View() == DnsResolver.Put(old(View()), sp, f) && Owned(View())
    {
      PutOwns(View(), sp, f);
      stack[sp] := f;
    }

    /** The macro `goto`. */
    method Go(s: State)
      requires Sized() && Owned(View())
      modifies stack
      ensures View() == DnsResolver.Go(old(View()), s) && Owned(View())
    {
      Put(stack[sp].(state := s));
    }

    method PutAnswer(i: nat, o: Option<nat>)
      requires Sized() && i < MAXDEPTH && Owned(View()) && Fresh(View(), o)
      modifies this`live, stack
      ensures View() == DnsResolver.PutAnswer(old(View()), i, o) && Owned(View())
    {
      AnswerOwns(View(), i, o);
      if stack[i].answer.Some? {
        Free(i, stack[i].answer.value);
      }
      live := Allocated(live, o);
      stack[i] := stack[i].(answer := o);
    }

    method PutQuery(i: nat, o: Option<nat>)
      requires Sized() && i < MAXDEPTH && Owned(View()) && Fresh(View(), o)
      modifies this`live, stack
      ensures View() == DnsResolver.PutQuery(old(View()), i, o) && Owned(View())
    {
      QueryOwns(View(), i, o);
      if stack[i].query.Some? {
        Free(i, stack[i].query.value);
      }
      live := Allocated(live, o);
      stack[i] := stack[i].(query := o);
    }

    method PutHints(i: nat, o: Option<nat>)
      requires Sized() && i < MAXDEPTH && Owned(View()) && Fresh(View(), o)
      modifies this`live, stack
      ensures View() == DnsResolver.PutHints(old(View()), i, o) && Owned(View())
    {
      HintsOwn(View(), i, o);
      if stack[i].hints.Some? {
        Free(i, stack[i].hints.value);
      }
      live := Allocated(live, o);
      stack[i] := stack[i].(hints := o);
    }

    /** `free`, of a packet that frame `i` points to. */
    method Free(i: nat, p: nat)
      requires Sized() && i < MAXDEPTH && Owned(View()) && Held(stack[i], p) > 0
      modifies this`live
      ensures old(p in live) && live == old(live) - {p}
    {
      PointedTo(stack[..], i, p);
      assert Pointers(View().stack, p) <= if p in View().live then 1 else 0;
      live := live - {p};
    }

    /** An answer that is assigned with no `free` of the one before. */
    method SetAnswer(o: Option<nat>)
      requires Sized() && Owned(View()) && Fresh(View(), o)
      modifies this`live, stack
      ensures View() == DnsResolver.SetAnswer(old(View()), o) && Owned(View())
    {
      SetAnswerOwns(View(), o);
      ghost var r := View();
      live := Allocated(live, o);
      stack[sp] := stack[sp].(answer := o);
      assert DnsResolver.SetAnswer(r, o).live == live;
    }

    /** `dns_res_reset_frame`. */
    method Reset(i: nat)
      requires Sized() && i < MAXDEPTH && Owned(View())
      modifies this`live, stack
      ensures View() == DnsResolver.Reset(old(View()), i) && Owned(View()) && live <= old(live)
    {
      ResetOwns(View(), i);
      PutQuery(i, None);
      PutAnswer(i, None);
      PutHints(i, None);
      stack[i] := EMPTY;
    }

    /** The frame above gets its query and is started. */
    method Push(s: State, p: nat)
      requires Sized() && sp + 1 < MAXDEPTH && Owned(View()) && p !in live
      modifies this`live, this`sp, stack
      ensures View() == DnsResolver.Push(old(View()), s, p) && Owned(View())
    {
      PushOwns(View(), s, p);
      PutQuery(sp + 1, Some(p));
      Go(s);
      sp := sp + 1;
      Go(Init);
    }

    // -------------------------------------------------------------- the states

    method GlueState(e: Env) returns (s: Signal)
      requires In(Glue, e)
      modifies this`live, stack
      ensures GlueTurn(old(View()), e) == Result(s)
    {
      if sp == 0 {
        Go(Switch);
        return Loop;
      }
      assert stack[sp].query.Some?;
      if !e.yes(0) {
        SetAnswer(None);
        Go(Switch);
        return Loop;
      }
      SetAnswer(Some(e.packet(0)));
      if !e.ok(0) {
        return Failed;
      }
      if e.yes(1) {
        Go(Finish);
        return Loop;
      }
      if e.yes(2) {
        Go(Cname0);
        return Loop;
      }
      Go(Switch);
      s := Loop;
    }

    method SwitchState() returns (s: Signal)
      requires Sized() && Owned(View())
      modifies stack
      ensures SwitchTurn(config, old(View())) == Result(s)
    {
      ghost var found := Method(config, stack[sp].which);
      while stack[sp].which < |config.lookup| && config.lookup[stack[sp].which] != 0 as char
        invariant Sized() && Owned(View()) && Method(config, stack[sp].which) == found
        invariant View() == DnsResolver.Put(old(View()), sp, old(stack[sp]).(which := stack[sp].which))
        decreases |config.lookup| - stack[sp].which
      {
        var l := config.lookup[stack[sp].which];
        Put(stack[sp].(which := stack[sp].which + 1));
        if l == 'b' || l == 'B' {
          Go(Bind);
          return Loop;
        } else if l == 'f' || l == 'F' {
          Go(File);
          return Loop;
        } else if (l == 'c' || l == 'C') && config.cache {
          Go(Cache);
          return Loop;
        }
      }
      Go(Servfail);
      s := Loop;
    }

    method FileState(e: Env) returns (s: Signal)
      requires In(File, e)
      modifies this`live, this`search, stack
      ensures FileTurn(config, old(View()), e) == Result(s)
    {
      if sp > 0 {
        if !e.ok(0) {
          PutAnswer(sp, None);
          return Failed;
        }
        PutAnswer(sp, Some(e.packet(0)));
        if e.yes(0) {
          Go(Finish);
          return Loop;
        }
        PutAnswer(sp, None);
        Go(Switch);
        return Loop;
      }
      search := 0;
      s := FileSearch(e);
    }

    method FileSearch(e: Env) returns (s: Signal)
      requires Sized() && Owned(View()) && New(View(), e)
      modifies this`live, this`search, stack
      ensures FileTurns(config, old(View()), e, 0) == Result(s)
    {
      ghost var all := FileTurns(config, View(), e, 0);
      var k: nat := 0;
      while search < config.names
        invariant Sized() && Owned(View()) && New(View(), e) && FileTurns(config, View(), e, k) == all
        decreases config.names - search
      {
        var missed: bool;
        missed, s := FileOnce(e, k);
        if !missed {
          return;
        }
        k := k + 1;
      }
      Go(Switch);
      s := Loop;
    }

    /** The search list goes on. */
    method NextName()
      requires Sized() && Owned(View())
      modifies this`search
      ensures search == old(search) + 1 && Sized() && View() == old(View()).(search := search) && Owned(View())
    {
      search := search + 1;
    }

    /** One name of the search list; `missed` is whether to go on with the next. */
    method FileOnce(e: Env, k: nat) returns (missed: bool, s: Signal)
      requires Sized() && Owned(View()) && New(View(), e) && search < config.names
      modifies this`live, this`search, stack
      ensures search == old(search) + 1 && Sized() && Owned(View()) && (missed ==> New(View(), e))
      ensures FileTurns(config, old(View()), e, k) == if missed then FileTurns(config, View(), e, k + 1) else Result(s)
    {
      NextName();
      if !e.ok(2 * k) {
        return false, Failed;
      }
      if !e.ok(2 * k + 1) {
        PutAnswer(sp, None);
        return false, Failed;
      }
      missed := LookUp(e, k);
      s := Loop;
    }

    /** A name in the hosts file. */
    method LookUp(e: Env, k: nat) returns (missed: bool)
      requires Sized() && Owned(View()) && New(View(), e)
      modifies this`live, stack
      ensures Sized() && Owned(View()) && missed == !e.yes(k) && (missed ==> New(View(), e))
      ensures var t := DnsResolver.PutAnswer(old(View()), sp, Some(e.packet(k)));
              View() == if missed then DnsResolver.PutAnswer(t, t.sp, None) else DnsResolver.Go(t, Finish)
    {
      PutAnswer(sp, Some(e.packet(k)));
      missed := !e.yes(k);
      if missed {
        PutAnswer(sp, None);
      } else {
        Go(Finish);
      }
    }

    method AskCache(e: Env, next: State) returns (s: Signal)
      requires Sized() && Owned(View()) && e.packet(1) !in live
      modifies this`live, stack
      ensures Cached(old(View()), e, next) == Result(s)
    {
      if e.yes(0) {
        PutAnswer(sp, Some(e.packet(1)));
        if e.yes(1) {
          Go(Finish);
          return Loop;
        }
        PutAnswer(sp, None);
        Go(Switch);
        return Loop;
      }
      PutAnswer(sp, None);
      if !e.ok(1) {
        return Failed;
      }
      Go(next);
      s := Loop;
    }

    method CacheState(e: Env) returns (s: Signal)
      requires In(Cache, e)
      modifies this`live, stack
      ensures CacheTurn(old(View()), e) == Result(s)
    {
      assert config.cache;
      if stack[sp].query.None? {
        if !e.ok(0) {
          return Failed;
        }
        PutQuery(sp, Some(e.packet(0)));
      }
      s := AskCache(e, Submit);
    }

    /** DNS_R_SUBMIT and DNS_R_CHECK. */
    method AskState(e: Env, next: State) returns (s: Signal)
      requires Sized() && Owned(View())
      modifies stack
      ensures AskTurn(old(View()), e, next) == Result(s)
    {
      if !e.ok(0) {
        return Failed;
      }
      Go(next);
      s := Loop;
    }

    method BindState() returns (s: Signal)
      requires Valid() && stack[sp].state == Bind
      modifies this`search, stack
      ensures BindTurn(old(View())) == Result(s)
    {
      if sp > 0 {
        assert stack[sp].query.Some?;
        Go(Hints);
      } else {
        search := 0;
        Go(Search);
      }
      s := Loop;
    }

    method SearchState(e: Env) returns (s: Signal)
      requires In(Search, e)
      modifies this`live, this`search, stack
      ensures SearchTurn(config, old(View()), e) == Result(s)
    {
      if search >= config.names {
        Go(Switch);
        return Loop;
      }
      search := search + 1;
      if !e.ok(0) {
        return Failed;
      }
      PutQuery(sp, Some(e.packet(0)));
      if !e.ok(1) {
        return Failed;
      }
      Go(Hints);
      s := Loop;
    }

    method HintsState(e: Env) returns (s: Signal)
      requires In(Hints, e)
      modifies this`live, stack
      ensures HintsTurn(old(View()), e) == Result(s)
    {
      assert stack[sp].query.Some?;
      if !e.ok(0) {
        PutHints(sp, None);
        return Failed;
      }
      PutHints(sp, Some(e.packet(0)));
      Put(stack[sp].(unglued := e.size(0)));
      Go(Iterate);
      s := Loop;
    }

    method IterateState(e: Env) returns (s: Signal)
      requires In(Iterate, e)
      modifies stack
      ensures IterateTurn(old(View()), e) == Result(s)
    {
      assert stack[sp].hints.Some?;
      Put(stack[sp].(servers := e.size(0)));
      Go(ForeachNs);
      s := Loop;
    }

    method ForeachNsState(e: Env) returns (s: Signal)
      requires Sized() && Owned(View()) && stack[sp].hints.Some?
      modifies stack
      ensures ForeachNsTurn(config, old(View()), e) == Result(s)
    {
      var f := stack[sp];
      if f.servers == 0 || !e.yes(0) {
        PutGo(f.(attempts := f.attempts + 1), if f.attempts + 1 < config.attempts then Iterate else Switch);
      } else {
        PutGo(f.(servers := f.servers - 1, addresses := e.size(0), seen := false), ForeachA);
      }
      s := Loop;
    }

    method PutGo(f: Frame, s: State)
      requires Sized() && Owned(View()) && f.query == stack[sp].query && f.answer == stack[sp].answer
               && f.hints == stack[sp].hints
      modifies stack
      ensures View() == DnsResolver.Go(DnsResolver.Put(old(View()), sp, f), s) && Owned(View())
    {
      Put(f);
      Go(s);
    }

    method Resolv0State(e: Env) returns (s: Signal)
      requires In(Resolv0, e)
      modifies this`live, this`sp, stack
      ensures Resolv0Turn(old(View()), e) == Result(s)
    {
      if sp + 1 >= MAXDEPTH {
        Go(ForeachNs);
        return Loop;
      }
      Reset(sp + 1);
      if !e.ok(0) {
        return Failed;
      }
      if !e.ok(1) {
        PutQuery(sp + 1, Some(e.packet(0)));
        return Failed;
      }
      Push(Resolv1, e.packet(0));
      s := Loop;
    }

    method Resolv1State(e: Env) returns (s: Signal)
      requires In(Resolv1, e)
      modifies stack
      ensures Resolv1Turn(old(View()), e) == Result(s)
    {
      assert stack[sp + 1].query.Some? && stack[sp + 1].answer.Some?;
      if !e.ok(0) {
        return Failed;
      }
      var f := stack[sp];
      if e.yes(0) && f.unglued > 0 {
        Put(f.(unglued := f.unglued - 1, servers := e.size(0)));
      }
      if !e.ok(1) {
        return Failed;
      }
      Go(ForeachNs);
      s := Loop;
    }

    method ForeachAState(e: Env) returns (s: Signal)
      requires Sized() && Owned(View()) && stack[sp].hints.Some?
      modifies stack
      ensures ForeachATurn(old(View()), e) == Result(s)
    {
      if !e.ok(0) {
        return Failed;
      }
      var f := stack[sp];
      if f.addresses == 0 || !e.yes(0) {
        Go(if f.seen then ForeachNs else Resolv0);
        return Loop;
      }
      Put(f.(addresses := f.addresses - 1, seen := true));
      if !e.ok(1) {
        return Failed;
      }
      Go(QueryA);
      s := Loop;
    }

    method QueryAState(e: Env) returns (s: Signal)
      requires In(QueryA, e)
      modifies this`live, stack
      ensures QueryATurn(config, old(View()), e) == Result(s)
    {
      assert stack[sp].query.Some?;
      if e.yes(0) {
        Go(ForeachA);
        return Loop;
      }
      if !e.ok(0) {
        return Failed;
      }
      if !e.ok(1) {
        PutAnswer(sp, None);
        return Failed;
      }
      PutAnswer(sp, Some(e.packet(0)));
      s := AnswerState(e);
    }

    /** What the answer leads to. */
    method AnswerState(e: Env) returns (s: Signal)
      requires Sized() && Owned(View())
      modifies this`live, stack
      ensures Answered(config, old(View()), e) == Result(s)
    {
      if !e.ok(2) {
        return Failed;
      }
      if e.yes(1) {
        Go(Finish);
        return Loop;
      }
      if e.yes(2) {
        Go(Cname0);
        return Loop;
      }
      if !config.recurse {
        Go(Search);
        return Loop;
      }
      if e.yes(3) {
        Refer();
        Put(stack[sp].(unglued := e.size(0)));
        Go(Iterate);
        return Loop;
      }
      Go(if e.yes(4) then Finish else ForeachA);
      s := Loop;
    }

    /** The answer becomes the hints. */
    method Refer()
      requires Sized() && Owned(View())
      modifies this`live, stack
      ensures View() == DnsResolver.Refer(old(View())) && Owned(View())
    {
      ReferOwns(View());
      if stack[sp].hints.Some? {
        Free(sp, stack[sp].hints.value);
      }
      stack[sp] := stack[sp].(hints := stack[sp].answer, answer := None);
    }

    method Cname0State(e: Env) returns (s: Signal)
      requires In(Cname0, e)
      modifies this`live, this`sp, stack
      ensures Cname0Turn(old(View()), e) == Result(s)
    {
      assert stack[sp].answer.Some? && stack[sp].query.Some?;
      if sp + 1 >= MAXDEPTH {
        Go(Finish);
        return Loop;
      }
      if !e.ok(0) {
        return Failed;
      }
      Reset(sp + 1);
      if !e.ok(1) {
        return Failed;
      }
      if !e.ok(2) {
        PutQuery(sp + 1, Some(e.packet(0)));
        return Failed;
      }
      Push(Cname1, e.packet(0));
      s := Loop;
    }

    method Cname1State(e: Env) returns (s: Signal)
      requires In(Cname1, e)
      modifies this`live, stack
      ensures Cname1Turn(old(View()), e) == Result(s)
    {
      assert stack[sp].answer.Some? && stack[sp + 1].answer.Some?;
      if !e.ok(0) {
        return Failed;
      }
      PutAnswer(sp, Some(e.packet(0)));
      Go(Finish);
      s := Loop;
    }

    method FinishState(e: Env) returns (s: Signal)
      requires In(Finish, e)
      modifies this`smart, this`returned, stack
      ensures FinishTurn(config, old(View()), e) == Result(s)
    {
      assert stack[sp].answer.Some?;
      if !config.smart || sp > 0 {
        Go(Done);
        return Loop;
      }
      smart, returned := e.size(0), 0;
      Go(Smart0);
      s := Loop;
    }

    method Smart0State(e: Env) returns (s: Signal)
      requires Sized() && Owned(View()) && New(View(), e) && stack[sp].answer.Some?
      modifies this, stack
      ensures Smart0Turn(config, old(View()), e) == Result(s)
    {
      if sp + 1 >= MAXDEPTH {
        Go(Done);
        return Loop;
      }
      if smart > 0 && e.yes(0) {
        smart, returned := smart - 1, returned + e.size(0) + 1;
        if !e.ok(0) {
          return Failed;
        }
        s := AskFor(e, 0);
        return;
      }
      returned := returned + e.size(0);
      if config.mx && returned == 0 {
        s := AskFor(e, 1);
        return;
      }
      Go(Done);
      s := Loop;
    }

    method AskFor(e: Env, more: nat) returns (s: Signal)
      requires Sized() && sp + 1 < MAXDEPTH && Owned(View()) && New(View(), e)
      modifies this, stack
      ensures Ask(old(View()), e, more) == Result(s)
    {
      Reset(sp + 1);
      if !e.ok(1) {
        return Failed;
      }
      returned := returned + more;
      Push(Smart1, e.packet(0));
      s := Loop;
    }

    method Smart1State(e: Env) returns (s: Signal)
      requires In(Smart1, e)
      modifies this`live, stack
      ensures Smart1Turn(old(View()), e) == Result(s)
    {
      assert stack[sp + 1].answer.Some?;
      if e.yes(0) {
        PutAnswer(sp, Some(e.packet(0)));
      }
      if !e.ok(0) {
        return Failed;
      }
      Go(Smart0);
      s := Loop;
    }

    method DoneState() returns (s: Signal)
      requires Valid() && stack[sp].state == Done
      modifies this`sp
      ensures DoneTurn(old(View())) == Result(s)
    {
      assert stack[sp].answer.Some?;
      if sp > 0 {
        sp := sp - 1;
        return Loop;
      }
      s := Finished;
    }

    method ServfailState(e: Env) returns (s: Signal)
      requires In(Servfail, e)
      modifies this`live, stack
      ensures ServfailTurn(old(View()), e) == Result(s)
    {
      if !e.ok(0) {
        PutAnswer(sp, None);
        return Failed;
      }
      PutAnswer(sp, Some(e.packet(0)));
      if !e.ok(1) {
        return Failed;
      }
      Go(Done);
      s := Loop;
    }

    /** The switch. */
    method Dispatch(e: Env) returns (s: Signal)
      requires Valid() && New(View(), e)
      modifies this, stack
      ensures DnsResolver.Turn(config, old(View()), e) == Result(s)
    {
      match stack[sp].state {
        case Init => Go(Glue); s := Loop;
        case Glue => s := GlueState(e);
        case Switch => s := SwitchState();
        case File => s := FileState(e);
        case Cache => s := CacheState(e);
        case Submit => s := AskState(e, Check);
        case Check => s := AskState(e, Fetch);
        case Fetch => s := AskCache(e, Switch);
        case Bind => s := BindState();
        case Search => s := SearchState(e);
        case Hints => s := HintsState(e);
        case Iterate => s := IterateState(e);
        case ForeachNs => s := ForeachNsState(e);
        case Resolv0 => s := Resolv0State(e);
        case Resolv1 => s := Resolv1State(e);
        case ForeachA => s := ForeachAState(e);
        case QueryA => s := QueryAState(e);
        case Cname0 => s := Cname0State(e);
        case Cname1 => s := Cname1State(e);
        case Finish => s := FinishState(e);
        case Smart0 => s := Smart0State(e);
        case Smart1 => s := Smart1State(e);
        case Done => s := DoneState();
        case Servfail => s := ServfailState(e);
      }
    }

    method Turn(e: Env) returns (s: Signal)
      requires Valid() && New(View(), e)
      modifies this, stack
      ensures Valid() && DnsResolver.Turn(config, old(View()), e) == Result(s)
    {
      ShapeKept(config, View(), e);
      OwnedKept(config, View(), e);
      s := Dispatch(e);
    }

    /**
     `dns_res_exec`, which comes to an end when no referral can be followed; `DnsReferrals` shows that it need not
     else.
     */
    method Exec(es: nat -> Env) returns (turns: nat, s: Signal)
      requires Valid() && Bounded(config, View())
      requires forall i: nat {:trigger At(config, View(), es, i)} :: New(At(config, View(), es, i), es(i))
      modifies this, stack
      ensures Valid() && s != Loop && View() == At(config, old(View()), es, turns)
      ensures Ended(config, old(View()), es, turns, Result(s))
    {
      ghost var r := View();
      ghost var bound := BoundedEnds(config, r, es);
      turns, s := 0, Loop;
      while s == Loop
        invariant Valid() && View() == At(config, r, es, turns)
        invariant s != Loop ==> Ended(config, r, es, turns, Result(s))
        invariant s == Loop ==> turns <= bound
        decreases if s == Loop then bound - turns + 1 else 0
      {
        ghost var before := View();
        assert New(At(config, r, es, turns), es(turns));
        NextAt(config, r, es, turns, before);
        s := Turn(es(turns));
        Returned(config, r, es, bound, turns, before, Result(s));
        turns := turns + 1;
      }
    }
  }

  lemma Returned(c: Config, r: Resolver, es: nat -> Env, n: nat, i: nat, s: Resolver, o: Outcome)
    requires Shape(c, r) && ReturnsFrom(c, r, es, n) && s == At(c, r, es, i) && Turn(c, s, es(i)) == o
    ensures (i >= n ==> o.Return?) && Ended(c, r, es, i + 1, o)
  {
  }
}
