/**
 Whole runs of the resolver, whatever hosts, cache and network answer, and however often `dns_res_exec` is called.
 */
module DnsResolverRuns {
  import opened Wrappers
  import opened DnsResolver
  import opened DnsResolverOwned
  import opened DnsResolverSafe

  ghost predicate Inv(c: Config, r: Resolver) {
    Shape(c, r) && Owned(r)
  }

  /** What happens in the turns of a run, one after another. */
  datatype Run = End | Then(head: Env, tail: Run)

  ghost function After(c: Config, r: Resolver, run: Run): (s: Resolver)
    requires Shape(c, r)
    ensures Shape(c, s)
    decreases run
  {
    if run == End then r
    else
      ShapeKept(c, r, run.head);
      After(c, Turn(c, r, run.head).r, run.tail)
  }

  /** Every packet supplied is new when it comes. */
  ghost predicate AllNew(c: Config, r: Resolver, run: Run)
    requires Shape(c, r)
    decreases run
  {
    if run == End then true
    else
      ShapeKept(c, r, run.head);
      New(r, run.head) && AllNew(c, Turn(c, r, run.head).r, run.tail)
  }

  /** After `dns_res_submit`. */
  ghost function Submitted(c: Config, live: set<nat>): (r: Resolver)
    ensures Shape(c, r)
  {
    Resolver(seq(MAXDEPTH, i => EMPTY), 0, 0, 0, 0, live)
  }

  lemma {:induction false} NoPointers(stack: seq<Frame>, p: nat)
    requires forall i :: 0 <= i < |stack| ==> stack[i] == EMPTY
    ensures Pointers(stack, p) == 0
    decreases |stack|
  {
    if stack != [] {
      NoPointers(stack[..|stack| - 1], p);
    }
  }

  lemma StartsWell(c: Config, live: set<nat>)
    ensures Inv(c, Submitted(c, live))
  {
    forall p: nat ensures Pointers(Submitted(c, live).stack, p) <= if p in live then 1 else 0 {
      NoPointers(Submitted(c, live).stack, p);
    }
  }

  lemma {:induction false} RunKeeps(c: Config, r: Resolver, run: Run)
    requires Inv(c, r) && AllNew(c, r, run)
    ensures Inv(c, After(c, r, run))
    decreases run
  {
    if run != End {
      ShapeKept(c, r, run.head);
      OwnedKept(c, r, run.head);
      RunKeeps(c, Turn(c, r, run.head).r, run.tail);
    }
  }

  /** What the assertions in the code say at a turn, and what it takes for granted. */
  predicate Asserted(r: Resolver)
    requires r.Sized()
  {
    var f := r.Top();
    (f.state == Glue && r.sp > 0 ==> f.query.Some?)
    && (f.state == Bind && r.sp > 0 ==> f.query.Some?)
    && (f.state == Finish || f.state == Done ==> f.answer.Some?)
    && (Waiting(f.state) ==> r.sp + 1 < MAXDEPTH && r.stack[r.sp + 1].answer.Some? && r.stack[r.sp + 1].query.Some?)
    && (f.state == Cname1 || f.state == Smart0 || f.state == Smart1 ==> f.answer.Some?)
  }

  /**
   From a submitted query on, at every turn: the depth is bounded, the assertions hold, and every frame below waits.
   */
  lemma {:induction false} StackDiscipline(c: Config, live: set<nat>, run: Run)
    requires AllNew(c, Submitted(c, live), run)
    ensures var r := After(c, Submitted(c, live), run);
            r.sp < 8 && r.Sized() && Asserted(r) && (forall i :: 0 <= i < r.sp ==> Waiting(r.stack[i].state))
              && Owned(r)
  {
    StartsWell(c, live);
    RunKeeps(c, Submitted(c, live), run);
  }

  /** During the run some frame lies above the one at depth `d`. */
  ghost predicate Above(c: Config, r: Resolver, run: Run, d: nat)
    requires Shape(c, r)
    decreases run
  {
    if run == End then true
    else
      ShapeKept(c, r, run.head);
      r.sp > d && Above(c, Turn(c, r, run.head).r, run.tail, d)
  }

  /** As long as there is a frame above it a frame does not change; it finds itself as it was when its child is done. */
  lemma {:induction false} WaitsUnchanged(c: Config, r: Resolver, run: Run, d: nat)
    requires Shape(c, r) && d < r.sp && Above(c, r, run, d)
    ensures var s := After(c, r, run);
            Shape(c, s) && s.sp >= d && s.stack[d] == r.stack[d] && Waiting(s.stack[d].state)
            && (s.sp == d ==> d + 1 < MAXDEPTH && s.stack[d + 1].answer.Some?)
    decreases run
  {
    if run != End {
      ShapeKept(c, r, run.head);
      var s := Turn(c, r, run.head).r;
      assert s.stack[d] == r.stack[d];
      if s.sp > d {
        WaitsUnchanged(c, s, run.tail, d);
      } else {
        assert run.tail == End;
      }
    }
  }

  /** Whatever a frame points to is allocated, and nothing else points to it. */
  lemma PointsAlone(r: Resolver, i: nat, p: nat)
    requires r.Sized() && Owned(r) && i < MAXDEPTH && Held(r.stack[i], p) > 0
    ensures p in r.live && Pointers(r.stack, p) == 1
  {
    PointedTo(r.stack, i, p);
    assert Pointers(r.stack, p) <= if p in r.live then 1 else 0;
  }

  /**
   `dns_res_exec` returns without an error only when the query is answered, with a packet that is the answer's alone.
   */
  lemma {:induction false} ReturnsAnswered(c: Config, r: Resolver, e: Env)
    requires Inv(c, r) && New(r, e) && Turn(c, r, e).Return? && Turn(c, r, e).ok
    ensures var s := Turn(c, r, e).r;
            s.Sized() && s.sp == 0 && s.Top().state == Done && s.Top().answer.Some? && s.Top().answer.value in s.live
            && Pointers(s.stack, s.Top().answer.value) == 1
  {
    ShapeKept(c, r, e);
    OwnedKept(c, r, e);
    var s := Turn(c, r, e).r;
    PointsAlone(s, 0, s.Top().answer.value);
  }

  /** `dns_res_fetch`. */
  function Fetched(r: Resolver): (Resolver, Option<nat>)
    requires r.Sized()
  {
    if r.stack[0].state != Done then (r, None)
    else (r.(stack := r.stack[0 := r.stack[0].(answer := None)]), r.stack[0].answer)
  }

  /**
   A fetch gives an answer exactly when the query is done; whoever drives the resolver on after that meets the
   assertion of DNS_R_DONE with no answer.
   */
  lemma {:induction false} FetchOnce(c: Config, r: Resolver)
    requires Shape(c, r)
    ensures Fetched(r).1.Some? <==> r.sp == 0 && r.Top().state == Done
    ensures Fetched(r).1.Some? ==> !Asserted(Fetched(r).0)
  {
    var below := r.stack[0];
    assert r.sp > 0 ==> Waiting(below.state);
  }
}
