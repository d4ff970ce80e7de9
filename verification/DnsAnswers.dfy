/**
 What the resolver does with what it is given: an answer that has the records asked for is the one returned, or the
 one the frame below goes on with, and a referral takes the place of the name servers asked so far.
 */
module DnsAnswers {
  import opened Wrappers
  import opened DnsResolver
  import opened DnsResolverRuns
  import DnsMethods

  // ---------------------------------------------------------------- the hosts file

  /** Every name of the search list can be looked up. */
  predicate LooksUp(c: Config, e: Env) {
    forall i: nat :: i < 2 * c.names ==> e.ok(i)
  }

  /** The `k`-th name of the search list is the first that the hosts file has. */
  predicate FirstListed(c: Config, e: Env, k: nat) {
    k < c.names && e.yes(k) && forall i: nat :: i < k ==> !e.yes(i)
  }

  predicate NoneListed(c: Config, e: Env) {
    forall i: nat :: i < c.names ==> !e.yes(i)
  }

  /** The first name that is there is answered, or the next method is tried. */
  ghost predicate HostsGive(c: Config, e: Env, o: Outcome, sp: nat) {
    o.Again? && o.r.Sized() && o.r.sp == sp
    && if NoneListed(c, e) then o.r.Top().state == Switch
       else exists n: nat :: FirstListed(c, e, n) && o.r.Top().state == Finish && o.r.Top().answer == Some(e.packet(n))
  }

  lemma HostsFound(c: Config, r: Resolver, e: Env, k: nat)
    requires r.Sized() && r.search == k && FirstListed(c, e, k) && e.ok(2 * k) && e.ok(2 * k + 1)
    ensures HostsGive(c, e, FileTurns(c, r, e, k), r.sp)
  {
    var s := PutAnswer(r.(search := r.search + 1), r.sp, Some(e.packet(k)));
    assert FileTurns(c, r, e, k) == Jump(s, Finish);
    assert Go(s, Finish).Top().answer == Some(e.packet(k));
  }

  lemma HostsMissed(c: Config, r: Resolver, e: Env)
    requires r.Sized() && r.search >= c.names && NoneListed(c, e)
    ensures HostsGive(c, e, FileTurns(c, r, e, c.names), r.sp)
  {
  }

  /** From the `k`-th name on, when the ones before were looked up and not found. */
  lemma {:induction false} HostsFrom(c: Config, r: Resolver, e: Env, k: nat)
    requires r.Sized() && r.search == k <= c.names && LooksUp(c, e) && forall i: nat :: i < k ==> !e.yes(i)
    ensures HostsGive(c, e, FileTurns(c, r, e, k), r.sp)
    decreases c.names - k
  {
    if k < c.names {
      assert e.ok(2 * k) && e.ok(2 * k + 1);
      if e.yes(k) {
        HostsFound(c, r, e, k);
      } else {
        var s := DnsMethods.FileNext(c, r, e, k);
        HostsFrom(c, s, e, k + 1);
      }
    } else {
      HostsMissed(c, r, e);
    }
  }

  /**
   For the query itself the names of the search list are looked up in their order, from the first on: the answer is
   the entry of the first that is there, and only if none is there the next method is tried.
   */
  lemma {:induction false} HostsInOrder(c: Config, r: Resolver, e: Env)
    requires r.Sized() && r.sp == 0 && r.Top().state == File && LooksUp(c, e)
    ensures var o := Turn(c, r, e);
            o.Again? && o.r.Sized() && o.r.sp == 0
            && if NoneListed(c, e) then o.r.Top().state == Switch
               else exists n: nat :: FirstListed(c, e, n) && o.r.Top().state == Finish
                                     && o.r.Top().answer == Some(e.packet(n))
  {
    HostsFrom(c, r.(search := 0), e, 0);
  }

  // ---------------------------------------------------------------- answers with the records asked for

  /**
   In this turn the frame is given packet `p`, and it has the records asked for, or, from a name server, says with
   authority that there are none.
   */
  ghost predicate Given(c: Config, r: Resolver, e: Env, p: nat)
    requires r.Sized()
  {
    match r.Top().state
    case Glue => r.sp > 0 && e.yes(0) && e.ok(0) && e.yes(1) && p == e.packet(0)
    case File =>
      if r.sp > 0 then e.ok(0) && e.yes(0) && p == e.packet(0)
      else LooksUp(c, e) && exists n: nat :: FirstListed(c, e, n) && p == e.packet(n)
    case Cache => (r.Top().query.Some? || e.ok(0)) && e.yes(0) && e.yes(1) && p == e.packet(1)
    case Fetch => e.yes(0) && e.yes(1) && p == e.packet(1)
    case QueryA =>
      !e.yes(0) && e.ok(0) && e.ok(1) && e.ok(2) && p == e.packet(0)
      && (e.yes(1) || (c.recurse && !e.yes(2) && !e.yes(3) && e.yes(4)))
    case Cname1 => e.ok(0) && p == e.packet(0)
    case _ => false
  }

  /** The frame is done with answer `p`. */
  predicate DoneWith(r: Resolver, s: Resolver, state: State, p: nat)
    requires r.Sized()
  {
    s.Sized() && s.sp == r.sp && s.Top().state == state && s.Top().answer == Some(p)
    && forall i :: 0 <= i < r.sp ==> s.stack[i] == r.stack[i]
  }

  lemma OneListed(c: Config, e: Env, m: nat, n: nat)
    requires FirstListed(c, e, m) && FirstListed(c, e, n)
    ensures m == n
  {
  }

  lemma HostsFinish(c: Config, r: Resolver, e: Env, p: nat)
    requires r.Sized() && r.sp == 0 && r.Top().state == File && Given(c, r, e, p)
    ensures var o := Turn(c, r, e); o.Again? && DoneWith(r, o.r, Finish, p)
  {
    HostsInOrder(c, r, e);
    var n: nat :| FirstListed(c, e, n) && p == e.packet(n);
    var o := Turn(c, r, e);
    var m: nat :| FirstListed(c, e, m) && o.r.Top().state == Finish && o.r.Top().answer == Some(e.packet(m));
    OneListed(c, e, m, n);
  }

  lemma GivenFinishes(c: Config, r: Resolver, e: Env, p: nat)
    requires r.Sized() && Given(c, r, e, p)
    ensures var o := Turn(c, r, e); o.Again? && DoneWith(r, o.r, Finish, p)
  {
    if r.Top().state == File && r.sp == 0 {
      HostsFinish(c, r, e, p);
    }
  }

  /**
   Without `options.smart` the answer to the query itself is what is returned, two turns later, and fetched; in a
   frame above it is what the frame below finds when it goes on.
   */
  lemma {:induction false} GivenReturns(c: Config, r: Resolver, e: Env, p: nat, e1: Env, e2: Env)
    requires r.Sized() && Given(c, r, e, p) && (!c.smart || r.sp > 0)
    ensures var o := Turn(c, r, e);
            o.Again? && o.r.Sized()
            && var o1 := Turn(c, o.r, e1);
               o1.Again? && o1.r.Sized()
               && var o2 := Turn(c, o1.r, e2);
                  o2.r.Sized()
                  && if r.sp == 0 then o2.Return? && o2.ok && Fetched(o2.r).1 == Some(p)
                     else o2.Again? && o2.r.sp == r.sp - 1 && o2.r.Top() == r.stack[r.sp - 1]
                          && o2.r.stack[r.sp].answer == Some(p)
  {
    GivenFinishes(c, r, e, p);
    var s := Turn(c, r, e).r;
    FinishReturns(c, s, p, e1, e2);
  }

  lemma FinishReturns(c: Config, r: Resolver, p: nat, e1: Env, e2: Env)
    requires r.Sized() && r.Top().state == Finish && r.Top().answer == Some(p) && (!c.smart || r.sp > 0)
    ensures var o1 := Turn(c, r, e1);
            o1.Again? && o1.r.Sized()
            && var o2 := Turn(c, o1.r, e2);
               o2.r.Sized()
               && if r.sp == 0 then o2.Return? && o2.ok && Fetched(o2.r).1 == Some(p)
                  else o2.Again? && o2.r.sp == r.sp - 1 && o2.r.Top() == r.stack[r.sp - 1]
                       && o2.r.stack[r.sp].answer == Some(p)
  {
  }

  // ---------------------------------------------------------------- answers without them

  /** What the cache does not have is asked for, waited for and fetched. */
  lemma CacheAsked(c: Config, r: Resolver, e: Env, e1: Env, e2: Env)
    requires r.Sized() && r.Top().state == Cache && (r.Top().query.Some? || e.ok(0))
    requires !e.yes(0) && e.ok(1) && e1.ok(0) && e2.ok(0)
    ensures var o := Turn(c, r, e);
            o.Again? && o.r.Sized() && o.r.Top().state == Submit && o.r.Top().query.Some?
            && var o1 := Turn(c, o.r, e1);
               o1.Again? && o1.r.Sized() && o1.r.Top().state == Check
               && var o2 := Turn(c, o1.r, e2); o2.Again? && o2.r.Sized() && o2.r.sp == r.sp && o2.r.Top().state == Fetch
  {
  }

  /** A server with an address is asked there. */
  lemma AddressAsked(c: Config, r: Resolver, e: Env, e1: Env)
    requires r.Sized() && r.Top().state == ForeachNs && r.Top().servers > 0 && e.yes(0) && e.size(0) > 0
    requires e1.ok(0) && e1.ok(1) && e1.yes(0)
    ensures var o := Turn(c, r, e);
            o.Again? && o.r.Sized() && o.r.Top().state == ForeachA && o.r.Top().servers == r.Top().servers - 1
            && var o1 := Turn(c, o.r, e1);
               o1.Again? && o1.r.Sized() && o1.r.sp == r.sp && o1.r.Top().state == QueryA
                 && o1.r.Top().addresses == e.size(0) - 1
  {
  }

  /**
   The next one is asked when there is no answer in time, or one of no use; without `options.recurse` then the next
   name is.
   */
  lemma NextAsked(c: Config, r: Resolver, e: Env)
    requires r.Sized() && r.Top().state == QueryA
    requires e.yes(0) || (e.ok(0) && e.ok(1) && e.ok(2) && !e.yes(1) && !e.yes(2)
                          && (!c.recurse || (!e.yes(3) && !e.yes(4))))
    ensures var o := Turn(c, r, e);
            o.Again? && o.r.Sized() && o.r.sp == r.sp
              && o.r.Top().state == (if e.yes(0) || c.recurse then ForeachA else Search)
            && o.r.Top().hints == r.Top().hints && o.r.Top().addresses == r.Top().addresses
  {
  }

  /**
   Without `options.recurse` that holds at every depth: a frame that looks up another name goes on with the search
   list, and what it was to look up is gone.
   */
  lemma LookupGoesAstray(c: Config, r: Resolver, e: Env, e1: Env)
    requires r.Sized() && r.Top().state == QueryA && r.sp > 0 && !c.recurse && r.search < c.names
    requires !e.yes(0) && e.ok(0) && e.ok(1) && e.ok(2) && !e.yes(1) && !e.yes(2) && e1.ok(0) && e1.ok(1)
    ensures var o := Turn(c, r, e);
            o.Again? && o.r.Sized()
            && var o1 := Turn(c, o.r, e1);
               o1.Again? && o1.r.Sized() && o1.r.sp == r.sp && o1.r.Top().state == Hints && o1.r.search == r.search + 1
               && o1.r.Top().query == Some(e1.packet(0))
               && (r.Top().query.Some? && r.Top().query.value != e1.packet(0) && r.Top().query.value != e.packet(0)
                   ==> r.Top().query.value !in o1.r.live)
  {
  }

  /** When a server's addresses are used up the next server is taken, and when it had none it is looked up. */
  lemma NextServer(c: Config, r: Resolver, e: Env)
    requires r.Sized() && r.Top().state == ForeachA && e.ok(0) && (r.Top().addresses == 0 || !e.yes(0))
    ensures Turn(c, r, e) == Again(Go(r, if r.Top().seen then ForeachNs else Resolv0))
  {
  }

  /** A name server answers with name servers instead: from then on these are asked, and the ones before are freed. */
  lemma ReferralFollowed(c: Config, r: Resolver, e: Env)
    requires r.Sized() && r.Top().state == QueryA && c.recurse
    requires !e.yes(0) && e.ok(0) && e.ok(1) && e.ok(2) && !e.yes(1) && !e.yes(2) && e.yes(3)
    ensures var o := Turn(c, r, e);
            o.Again? && o.r.Sized() && o.r.sp == r.sp && o.r.Top().state == Iterate
            && o.r.Top().hints == Some(e.packet(0)) && o.r.Top().answer == None && o.r.Top().query == r.Top().query
            && (r.Top().hints.Some? && r.Top().hints.value != e.packet(0) ==> r.Top().hints.value !in o.r.live)
  {
  }

  /**
   A server without addresses is looked up in a frame above; if that finds some, and glue could still be added, there
   is one server less without, and the iteration over the servers starts over.
   */
  lemma {:induction false} ServerLookedUp(c: Config, r: Resolver, e: Env, s: Resolver, e1: Env)
    requires r.Sized() && r.Top().state == Resolv0 && r.sp + 1 < 8 && e.ok(0) && e.ok(1)
    requires s.Sized() && s.sp == r.sp && s.stack[s.sp] == Turn(c, r, e).r.stack[r.sp] && e1.ok(0) && e1.ok(1)
    ensures var o := Turn(c, r, e); o.Again? && o.r.Sized() && o.r.sp == r.sp + 1
                                    && o.r.Top() == EMPTY.(query := Some(e.packet(0)))
    ensures var o := Turn(c, s, e1);
            o.Again? && o.r.Sized() && o.r.sp == r.sp
            && o.r.Top() == if e1.yes(0) && r.Top().unglued > 0
                            then r.Top().(state := ForeachNs, unglued := r.Top().unglued - 1, servers := e1.size(0))
                            else r.Top().(state := ForeachNs)
  {
    var t := Reset(r, r.sp + 1);
    DnsMethods.DnsReferrals.ResetIs(r, t);
    DnsMethods.DnsReferrals.PushIs(t, Resolv1, e.packet(0), Push(t, Resolv1, e.packet(0)));
  }

  /**
   It answers with another name for the one asked for: that is looked up in a frame above, if there is room for one.
   */
  lemma {:induction false} AliasFollowed(c: Config, r: Resolver, e: Env, e1: Env)
    requires r.Sized() && r.Top().state == QueryA && r.sp + 1 < 8
    requires !e.yes(0) && e.ok(0) && e.ok(1) && e.ok(2) && !e.yes(1) && e.yes(2) && e1.ok(0) && e1.ok(1) && e1.ok(2)
    ensures var o := Turn(c, r, e);
            o.Again? && o.r.Sized()
            && var o1 := Turn(c, o.r, e1);
               o1.Again? && o1.r.Sized() && o1.r.sp == r.sp + 1 && o1.r.Top() == EMPTY.(query := Some(e1.packet(0)))
               && o1.r.stack[r.sp].state == Cname1 && o1.r.stack[r.sp].answer == Some(e.packet(0))
  {
    var s := Turn(c, r, e).r;
    var t := Reset(s, s.sp + 1);
    DnsMethods.DnsReferrals.ResetIs(s, t);
    DnsMethods.DnsReferrals.PushIs(t, Cname1, e1.packet(0), Push(t, Cname1, e1.packet(0)));
  }
}
