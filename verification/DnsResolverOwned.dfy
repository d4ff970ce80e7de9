/**
 Which packets the resolver's frames point to: every pointer is to an allocated packet, and to one of its own.
 */
module DnsResolverOwned {
  import opened Wrappers
  import opened DnsResolver

  /** Whether a pointer is to `p`. */
  function To(o: Option<nat>, p: nat): nat {
    if o == Some(p) then 1 else 0
  }

  function Held(f: Frame, p: nat): nat {
    To(f.query, p) + To(f.answer, p) + To(f.hints, p)
  }

  /** How many pointers of the frames are to `p`. */
  function Pointers(stack: seq<Frame>, p: nat): nat {
    if stack == [] then 0 else Pointers(stack[..|stack| - 1], p) + Held(stack[|stack| - 1], p)
  }

  /** Every pointer of the stack is to an allocated packet, and no two are to the same. */
  ghost predicate Owned(r: Resolver) {
    forall p: nat :: Pointers(r.stack, p) <= if p in r.live then 1 else 0
  }

  lemma {:induction false} PointersOver(stack: seq<Frame>, i: nat, f: Frame, p: nat)
    requires i < |stack|
    ensures Pointers(stack[i := f], p) + Held(stack[i], p) == Pointers(stack, p) + Held(f, p)
    decreases |stack|
  {
    var n := |stack| - 1;
    if i < n {
      assert stack[i := f][..n] == stack[..n][i := f];
      PointersOver(stack[..n], i, f, p);
    } else {
      assert stack[i := f][..n] == stack[..n];
    }
  }

  predicate Fresh(r: Resolver, o: Option<nat>) {
    o.Some? ==> o.value !in r.live
  }

  /** A frame gives up `gone` for `come`. */
  lemma Owning(r: Resolver, i: nat, f: Frame, gone: Option<nat>, come: Option<nat>)
    requires i < |r.stack| && forall p: nat :: Held(f, p) + To(gone, p) == Held(r.stack[i], p) + To(come, p)
    ensures Owned(r) && Fresh(r, come) ==> Owned(r.(stack := r.stack[i := f],
                                                    live := Allocated(Freed(r.live, gone), come)))
  {
    if Owned(r) && Fresh(r, come) {
      var s, live := r.stack[i := f], Allocated(Freed(r.live, gone), come);
      forall p: nat ensures Pointers(s, p) <= if p in live then 1 else 0 {
        PointersOver(r.stack, i, f, p);
        assert Held(f, p) + To(gone, p) == Held(r.stack[i], p) + To(come, p);
      }
    }
  }

  lemma MoreLive(r: Resolver, live: set<nat>)
    requires Owned(r) && r.live <= live
    ensures Owned(r.(live := live))
  {
    forall p: nat ensures Pointers(r.stack, p) <= if p in live then 1 else 0 {
      assert Pointers(r.stack, p) <= if p in r.live then 1 else 0;
    }
  }

  lemma {:induction false} PointedTo(stack: seq<Frame>, i: nat, p: nat)
    requires i < |stack|
    ensures Held(stack[i], p) <= Pointers(stack, p)
    decreases |stack|
  {
    if i < |stack| - 1 {
      PointedTo(stack[..|stack| - 1], i, p);
    }
  }

  // ---------------------------------------------------------------- what each change of a frame keeps

  lemma PutOwns(r: Resolver, i: nat, f: Frame)
    requires r.Sized() && i < MAXDEPTH && f.query == r.stack[i].query && f.answer == r.stack[i].answer
             && f.hints == r.stack[i].hints
    requires Owned(r)
    ensures Owned(Put(r, i, f))
  {
    Owning(r, i, f, None, None);
  }

  lemma GoOwns(r: Resolver, s: State)
    requires r.Sized() && Owned(r)
    ensures Owned(Go(r, s))
  {
    PutOwns(r, r.sp, r.Top().(state := s));
  }

  lemma AnswerOwns(r: Resolver, i: nat, o: Option<nat>)
    requires r.Sized() && i < MAXDEPTH && Owned(r) && Fresh(r, o)
    ensures Owned(PutAnswer(r, i, o))
  {
    Owning(r, i, r.stack[i].(answer := o), r.stack[i].answer, o);
  }

  lemma QueryOwns(r: Resolver, i: nat, o: Option<nat>)
    requires r.Sized() && i < MAXDEPTH && Owned(r) && Fresh(r, o)
    ensures Owned(PutQuery(r, i, o))
  {
    Owning(r, i, r.stack[i].(query := o), r.stack[i].query, o);
  }

  lemma HintsOwn(r: Resolver, i: nat, o: Option<nat>)
    requires r.Sized() && i < MAXDEPTH && Owned(r) && Fresh(r, o)
    ensures Owned(PutHints(r, i, o))
  {
    Owning(r, i, r.stack[i].(hints := o), r.stack[i].hints, o);
  }

  lemma SetAnswerOwns(r: Resolver, o: Option<nat>)
    requires r.Sized() && Owned(r) && Fresh(r, o)
    ensures Owned(SetAnswer(r, o))
  {
    AnswerOwns(r, r.sp, o);
    var s := PutAnswer(r, r.sp, o);
    MoreLive(s, s.live + r.live);
  }

  lemma ReferOwns(r: Resolver)
    requires r.Sized() && Owned(r)
    ensures Owned(Refer(r))
  {
    Owning(r, r.sp, r.Top().(hints := r.Top().answer, answer := None), r.Top().hints, None);
  }

  lemma ResetOwns(r: Resolver, i: nat)
    requires r.Sized() && i < MAXDEPTH && Owned(r)
    ensures Owned(Reset(r, i)) && Reset(r, i).live <= r.live
  {
    QueryOwns(r, i, None);
    var q := PutQuery(r, i, None);
    AnswerOwns(q, i, None);
    var a := PutAnswer(q, i, None);
    HintsOwn(a, i, None);
    PutOwns(PutHints(a, i, None), i, EMPTY);
  }

  lemma PushOwns(r: Resolver, s: State, p: nat)
    requires r.Sized() && r.sp + 1 < MAXDEPTH && Owned(r) && p !in r.live
    ensures Owned(Push(r, s, p))
  {
    QueryOwns(r, r.sp + 1, Some(p));
    GoOwns(PutQuery(r, r.sp + 1, Some(p)), s);
    GoOwns(Go(PutQuery(r, r.sp + 1, Some(p)), s).(sp := r.sp + 1), Init);
  }

  // ---------------------------------------------------------------- what each turn keeps

  /** The packets an `Env` supplies are new. */
  ghost predicate New(r: Resolver, e: Env) {
    (forall k: nat :: e.packet(k) !in r.live) && forall k: nat, l: nat :: k != l ==> e.packet(k) != e.packet(l)
  }

  /** A packet was asked for; it may be of no use. */
  lemma AskedOwns(r: Resolver, p: nat)
    requires r.Sized() && Owned(r) && p !in r.live
    ensures var t := PutAnswer(r, r.sp, Some(p)); Owned(t) && Owned(Go(t, Finish)) && Owned(PutAnswer(t, t.sp, None))
                                                  && Owned(Go(PutAnswer(t, t.sp, None), Switch))
  {
    AnswerOwns(r, r.sp, Some(p));
    var t := PutAnswer(r, r.sp, Some(p));
    GoOwns(t, Finish);
    AnswerOwns(t, t.sp, None);
    GoOwns(PutAnswer(t, t.sp, None), Switch);
  }

  lemma GlueOwns(r: Resolver, e: Env)
    requires r.Sized() && Owned(r) && New(r, e)
    ensures Owned(GlueTurn(r, e).r)
  {
    GoOwns(r, Switch);
    SetAnswerOwns(r, None);
    GoOwns(SetAnswer(r, None), Switch);
    var s := SetAnswer(r, Some(e.packet(0)));
    SetAnswerOwns(r, Some(e.packet(0)));
    GoOwns(s, Finish);
    GoOwns(s, Cname0);
    GoOwns(s, Switch);
  }

  lemma SwitchOwns(c: Config, r: Resolver)
    requires r.Sized() && Owned(r)
    ensures Owned(SwitchTurn(c, r).r)
  {
    var (s, which) := Method(c, r.Top().which);
    PutOwns(r, r.sp, r.Top().(which := which));
    GoOwns(Put(r, r.sp, r.Top().(which := which)), s);
  }

  lemma {:induction false} FileTurnsOwn(c: Config, r: Resolver, e: Env, k: nat)
    requires r.Sized() && Owned(r) && New(r, e)
    ensures Owned(FileTurns(c, r, e, k).r)
    decreases c.names - r.search
  {
    GoOwns(r, Switch);
    var s := r.(search := r.search + 1);
    AnswerOwns(s, s.sp, None);
    AskedOwns(s, e.packet(k));
    if r.search < c.names && e.ok(2 * k) && e.ok(2 * k + 1) && !e.yes(k) {
      var t := PutAnswer(s, s.sp, Some(e.packet(k)));
      FileTurnsOwn(c, PutAnswer(t, t.sp, None), e, k + 1);
    }
  }

  lemma FileOwns(c: Config, r: Resolver, e: Env)
    requires r.Sized() && Owned(r) && New(r, e)
    ensures Owned(FileTurn(c, r, e).r)
  {
    if r.sp == 0 {
      FileTurnsOwn(c, r.(search := 0), e, 0);
    } else {
      AnswerOwns(r, r.sp, None);
      AskedOwns(r, e.packet(0));
    }
  }

  lemma CachedOwns(r: Resolver, e: Env, s: State)
    requires r.Sized() && Owned(r) && e.packet(1) !in r.live
    ensures Owned(Cached(r, e, s).r)
  {
    AskedOwns(r, e.packet(1));
    AnswerOwns(r, r.sp, None);
    GoOwns(PutAnswer(r, r.sp, None), s);
  }

  lemma CacheOwns(r: Resolver, e: Env)
    requires r.Sized() && Owned(r) && New(r, e)
    ensures Owned(CacheTurn(r, e).r)
  {
    if r.Top().query.Some? {
      CachedOwns(r, e, Submit);
    } else {
      QueryOwns(r, r.sp, Some(e.packet(0)));
      CachedOwns(PutQuery(r, r.sp, Some(e.packet(0))), e, Submit);
    }
  }

  lemma SearchOwns(c: Config, r: Resolver, e: Env)
    requires r.Sized() && Owned(r) && New(r, e)
    ensures Owned(SearchTurn(c, r, e).r)
  {
    GoOwns(r, Switch);
    var s := r.(search := r.search + 1);
    QueryOwns(s, s.sp, Some(e.packet(0)));
    GoOwns(PutQuery(s, s.sp, Some(e.packet(0))), Hints);
  }

  lemma HintsTurnOwns(r: Resolver, e: Env)
    requires r.Sized() && Owned(r) && New(r, e)
    ensures Owned(HintsTurn(r, e).r)
  {
    HintsOwn(r, r.sp, None);
    var s := PutHints(r, r.sp, Some(e.packet(0)));
    HintsOwn(r, r.sp, Some(e.packet(0)));
    PutOwns(s, s.sp, s.Top().(unglued := e.size(0)));
    GoOwns(Put(s, s.sp, s.Top().(unglued := e.size(0))), Iterate);
  }

  lemma EditOwns(r: Resolver, f: Frame, s: State)
    requires r.Sized() && Owned(r) && f.query == r.Top().query && f.answer == r.Top().answer && f.hints == r.Top().hints
    ensures Owned(Put(r, r.sp, f)) && Owned(Go(Put(r, r.sp, f), s))
  {
    PutOwns(r, r.sp, f);
    GoOwns(Put(r, r.sp, f), s);
  }

  lemma IterateOwns(r: Resolver, e: Env)
    requires r.Sized() && Owned(r)
    ensures Owned(IterateTurn(r, e).r)
  {
    EditOwns(r, r.Top().(servers := e.size(0)), ForeachNs);
  }

  lemma ForeachNsOwns(c: Config, r: Resolver, e: Env)
    requires r.Sized() && Owned(r)
    ensures Owned(ForeachNsTurn(c, r, e).r)
  {
    var f := r.Top();
    if f.servers == 0 || !e.yes(0) {
      EditOwns(r, f.(attempts := f.attempts + 1), if f.attempts + 1 < c.attempts then Iterate else Switch);
    } else {
      EditOwns(r, f.(servers := f.servers - 1, addresses := e.size(0), seen := false), ForeachA);
    }
  }

  lemma Resolv1Owns(r: Resolver, e: Env)
    requires r.Sized() && Owned(r)
    ensures Owned(Resolv1Turn(r, e).r)
  {
    var f := r.Top();
    if e.yes(0) && f.unglued > 0 {
      EditOwns(r, f.(unglued := f.unglued - 1, servers := e.size(0)), ForeachNs);
    } else {
      GoOwns(r, ForeachNs);
    }
  }

  lemma ForeachAOwns(r: Resolver, e: Env)
    requires r.Sized() && Owned(r)
    ensures Owned(ForeachATurn(r, e).r)
  {
    var f := r.Top();
    if f.addresses == 0 || !e.yes(0) {
      GoOwns(r, if f.seen then ForeachNs else Resolv0);
    } else {
      EditOwns(r, f.(addresses := f.addresses - 1, seen := true), QueryA);
    }
  }

  lemma AnsweredOwns(c: Config, r: Resolver, e: Env)
    requires r.Sized() && Owned(r)
    ensures Owned(Answered(c, r, e).r)
  {
    forall s: State ensures Owned(Go(r, s)) {
      GoOwns(r, s);
    }
    ReferOwns(r);
    var t := Refer(r);
    PutOwns(t, t.sp, t.Top().(unglued := e.size(0)));
    GoOwns(Put(t, t.sp, t.Top().(unglued := e.size(0))), Iterate);
  }

  lemma QueryAOwns(c: Config, r: Resolver, e: Env)
    requires r.Sized() && Owned(r) && New(r, e)
    ensures Owned(QueryATurn(c, r, e).r)
  {
    GoOwns(r, ForeachA);
    AnswerOwns(r, r.sp, None);
    AnswerOwns(r, r.sp, Some(e.packet(0)));
    AnsweredOwns(c, PutAnswer(r, r.sp, Some(e.packet(0))), e);
  }

  /** The turns that push a frame. */
  lemma NewFrameOwns(r: Resolver, e: Env, s: Resolver)
    requires r.Sized() && Owned(r) && New(r, e) && r.sp + 1 < MAXDEPTH && s == Reset(r, r.sp + 1)
    ensures Owned(s) && Owned(PutQuery(s, s.sp + 1, Some(e.packet(0))))
    ensures Owned(Push(s, Resolv1, e.packet(0))) && Owned(Push(s, Cname1, e.packet(0)))
  {
    ResetOwns(r, r.sp + 1);
    QueryOwns(s, s.sp + 1, Some(e.packet(0)));
    PushOwns(s, Resolv1, e.packet(0));
    PushOwns(s, Cname1, e.packet(0));
  }

  lemma DescendOwns(r: Resolver, e: Env)
    requires r.Sized() && Owned(r) && New(r, e)
    ensures Owned(Resolv0Turn(r, e).r) && Owned(Cname0Turn(r, e).r)
  {
    GoOwns(r, ForeachNs);
    GoOwns(r, Finish);
    if r.sp + 1 < MAXDEPTH {
      NewFrameOwns(r, e, Reset(r, r.sp + 1));
    }
  }

  lemma AskOwns(r: Resolver, e: Env, more: nat)
    requires r.Sized() && Owned(r) && New(r, e) && r.sp + 1 < MAXDEPTH
    ensures Owned(Ask(r, e, more).r)
  {
    ResetOwns(r, r.sp + 1);
    var s := Reset(r, r.sp + 1);
    PushOwns(s.(returned := s.returned + more), Smart1, e.packet(0));
  }

  lemma SmartOwns(r: Resolver, s: Resolver, e: Env, more: nat, o: Outcome)
    requires r.Sized() && Owned(r) && New(r, e) && r.sp + 1 < MAXDEPTH && s.stack == r.stack && s.live == r.live
             && s.sp == r.sp
    requires o == Ask(s, e, more) || o == Jump(s, Done) || o == Fail(s)
    ensures Owned(o.r)
  {
    AskOwns(s, e, more);
    GoOwns(s, Done);
  }

  lemma Smart0Owns(c: Config, r: Resolver, e: Env)
    requires r.Sized() && Owned(r) && New(r, e)
    ensures Owned(Smart0Turn(c, r, e).r)
  {
    var o := Smart0Turn(c, r, e);
    if r.sp + 1 >= MAXDEPTH {
      GoOwns(r, Done);
    } else if r.smart > 0 && e.yes(0) {
      SmartOwns(r, r.(smart := r.smart - 1, returned := r.returned + e.size(0) + 1), e, 0, o);
    } else {
      SmartOwns(r, r.(returned := r.returned + e.size(0)), e, 1, o);
    }
  }

  /** The turns that give the frame a new answer. */
  lemma AnswersOwn(c: Config, r: Resolver, e: Env)
    requires r.Sized() && Owned(r) && New(r, e)
    ensures Owned(Cname1Turn(r, e).r) && Owned(Smart1Turn(r, e).r) && Owned(ServfailTurn(r, e).r)
  {
    GoOwns(r, Smart0);
    AnswerOwns(r, r.sp, None);
    AskedOwns(r, e.packet(0));
    var t := PutAnswer(r, r.sp, Some(e.packet(0)));
    GoOwns(t, Smart0);
    GoOwns(t, Done);
  }

  lemma PlainOwn(c: Config, r: Resolver, e: Env)
    requires r.Sized() && Owned(r)
    ensures Owned(Jump(r, Glue).r) && Owned(AskTurn(r, e, Check).r) && Owned(AskTurn(r, e, Fetch).r)
    ensures Owned(BindTurn(r).r) && Owned(FinishTurn(c, r, e).r) && Owned(DoneTurn(r).r)
  {
    forall s: State, n: nat, m: nat, k: nat ensures Owned(Go(r.(search := n, smart := m, returned := k), s))
      && Owned(Go(r, s)) {
      GoOwns(r, s);
      GoOwns(r.(search := n, smart := m, returned := k), s);
    }
  }

  /** A turn frees only what is allocated and pointed to once, and leaves nothing pointed to that it freed. */
  lemma {:induction false} OwnedKept(c: Config, r: Resolver, e: Env)
    requires r.Sized() && Owned(r) && New(r, e)
    ensures Owned(Turn(c, r, e).r)
  {
    match r.Top().state {
      case Init | Submit | Check | Bind | Finish | Done => PlainOwn(c, r, e);
      case Glue => GlueOwns(r, e);
      case Switch => SwitchOwns(c, r);
      case File => FileOwns(c, r, e);
      case Cache => CacheOwns(r, e);
      case Fetch => CachedOwns(r, e, Switch);
      case Search => SearchOwns(c, r, e);
      case Hints => HintsTurnOwns(r, e);
      case Iterate => IterateOwns(r, e);
      case ForeachNs => ForeachNsOwns(c, r, e);
      case Resolv1 => Resolv1Owns(r, e);
      case ForeachA => ForeachAOwns(r, e);
      case QueryA => QueryAOwns(c, r, e);
      case Resolv0 | Cname0 => DescendOwns(r, e);
      case Smart0 => Smart0Owns(c, r, e);
      case Cname1 | Smart1 | Servfail => AnswersOwn(c, r, e);
    }
  }
}
