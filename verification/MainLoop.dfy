/**
 The event loop: its list of sources, and the timers in it (`belle_sip_loop.c`).  A timer that fired late
 is set again from its deadline, not from the time at which it was served.
 */
module MainLoop {
  import opened Bits
  import opened Lists

  // ---------------------------------------------------------------- the list of sources

  class Loop {
    var sources: Link?
    var nsources: nat
    ghost var links: seq<Link>

    ghost predicate Valid()
      reads this, links
    {
      Chain(sources, links) && nsources == |links|
    }

    constructor ()
      ensures Valid() && links == []
    {
      sources, nsources, links := null, 0, [];
    }

    /** `belle_sip_main_loop_add_source`, for a source that is in no list. */
    method AddSource(source: Link)
      requires Valid() && source !in links && source.next == null && source.prev == null
      modifies this, links, source
      ensures Valid() && links == old(links) + [source]
    {
      sources := Concat(sources, source, links, [source]);
      nsources := nsources + 1;
      links := links + [source];
    }

    /** `belle_sip_main_loop_remove_source`; a source that is in no list is left alone. */
    method RemoveSource(source: Link)
      requires Valid() && (source in links || (source.next == null && source.prev == null))
      modifies this, links
      ensures Valid() && source !in links
      ensures old(source !in links) ==> links == old(links) && nsources == old(nsources)
      ensures old(source in links) ==> exists k :: 0 <= k < |old(links)| && old(links)[k] == source
                                                   && links == old(links[..k] + links[k + 1..])
    {
      if source.next == null && source.prev == null && source != sources {
        NotLinked(source);
        return;
      }
      ghost var k :| 0 <= k < |links| && links[k] == source;
      sources := RemoveLink(sources, source, links, k);
      nsources := nsources - 1;
      links := links[..k] + links[k + 1..];
    }

    /** A link with no neighbours that is not the first is in no list. */
    lemma NotLinked(source: Link)
      requires Valid() && source.next == null && source.prev == null && source != sources
      ensures source !in links
    {
    }
  }

  // ---------------------------------------------------------------- timers

  /** A timer source: when it is due, and its period. */
  datatype Timer = Timer(expire: nat, timeout: nat, expired: bool)

  function Started(now: nat, timeout: nat): Timer {
    Timer(now + timeout, timeout, false)
  }

  /** `belle_sip_source_set_timeout`: the deadline of a timer that is being served stays. */
  function SetTimeout(t: Timer, now: nat, value: nat): Timer {
    if t.expired then t.(timeout := value) else t.(expire := now + value, timeout := value)
  }

  /** One turn of the loop serves a timer that is due; its callback sets `value` and lets it go on. */
  function Served(t: Timer, now: nat, value: nat): Timer {
    var s := SetTimeout(t.(expired := true), now, value);
    s.(expire := s.expire + s.timeout, expired := false)
  }

  class Source {
    var expire: nat
    var timeout: nat
    var expired: bool
    var cancelled: bool

    ghost function View(): Timer
      reads this
    {
      Timer(expire, timeout, expired)
    }

    constructor (timeout: nat)
      ensures this.timeout == timeout && !expired && !cancelled
    {
      expire, this.timeout, expired, cancelled := 0, timeout, false, false;
    }

    /** What `belle_sip_main_loop_add_source` does to a timer. */
    method Start(now: nat)
      requires !expired
      modifies this
      ensures View() == Started(now, old(timeout)) && !cancelled
    {
      expire := now + timeout;
      cancelled := false;
    }

    method SetPeriod(now: nat, value: nat)
      modifies this
      ensures View() == SetTimeout(old(View()), now, value) && cancelled == old(cancelled)
    {
      if !expired {
        expire := now + value;
      }
      timeout := value;
    }

    /** What one turn of `belle_sip_main_loop_iterate` does to a timer whose callback sets its period by `period`. */
    method Turn(cur: nat, now: nat, period: nat -> nat) returns (served: bool)
      requires !cancelled
      modifies this
      ensures served == (cur >= old(expire)) && !cancelled
      ensures View() == if served then Served(old(View()), now, period(old(timeout))) else old(View())
    {
      served := cur >= expire;
      if served {
        expired := true;
        SetPeriod(now, period(timeout));
        expire := expire + timeout;
        expired := false;
      }
    }
  }

  // ---------------------------------------------------------------- timer A

  /** Timer A after it was served `k` times. */
  function TimerA(start: nat, t1: nat, k: nat): Timer {
    Timer(start + (Pow2(k + 1) - 1) * t1, Pow2(k) * t1, false)
  }

  /** Timer A does not drift: however late it is served, its deadlines are start + (2^k - 1) T1. */
  lemma {:induction false} TimerADeadlines(start: nat, t1: nat, k: nat, now: nat)
    ensures TimerA(start, t1, 0) == Started(start, t1)
    ensures Served(TimerA(start, t1, k), now, 2 * TimerA(start, t1, k).timeout) == TimerA(start, t1, k + 1)
  {
    assert Pow2(k + 2) == 2 * Pow2(k + 1) && Pow2(k + 1) == 2 * Pow2(k);
    Distribute(Pow2(k + 1), Pow2(k + 1) - 1, t1);
    Distribute(Pow2(k), Pow2(k), t1);
  }

  /** An INVITE that is not answered: timer A, the deadline of timer B, and how often it was sent again. */
  datatype Unanswered = Unanswered(a: Timer, b: nat, again: nat, over: bool)

  /** A turn of the loop at time `cur`; timer A was started before timer B and is served before it. */
  function Turn(u: Unanswered, cur: nat, now: nat): Unanswered {
    if u.over then u
    else
      var v := if cur >= u.a.expire then u.(a := Served(u.a, now, 2 * u.a.timeout), again := u.again + 1) else u;
      if cur >= u.b then v.(over := true) else v
  }

  function Turns(u: Unanswered, times: seq<nat>): Unanswered
    decreases |times|
  {
    if times == [] then u else Turns(Turn(u, times[0], times[0]), times[1..])
  }

  /** Timers A and B started at `start` and `start + d`. */
  function Calling(start: nat, d: nat, t1: nat): Unanswered {
    Unanswered(Started(start, t1), start + d + 64 * t1, 0, false)
  }

  /** As long as timer B is not served, timer A was served only at deadlines before timer B's. */
  predicate Waiting(u: Unanswered, start: nat, d: nat, t1: nat) {
    u.a == TimerA(start, t1, u.again) && u.b == start + d + 64 * t1 && !u.over
    && (u.again > 0 ==> start + (Pow2(u.again) - 1) * t1 < u.b)
  }

  lemma {:induction false} FewDoublings(k: nat, d: nat, t1: nat)
    requires k > 0 && (Pow2(k) - 1) * t1 < d + 64 * t1 && d < 63 * t1
    ensures k <= 6
  {
    if k >= 7 {
      PowGrows(7, k);
      assert Pow2(7) == 128;
      Times(127, Pow2(k) - 1, t1);
      assert false;
    }
  }

  lemma Times(a: nat, b: nat, t: nat)
    requires a <= b
    ensures a * t <= b * t
  {
  }

  lemma WaitingOn(u: Unanswered, cur: nat, now: nat, start: nat, d: nat, t1: nat)
    requires Waiting(u, start, d, t1) && d < 63 * t1
    ensures u.again <= 6
    ensures cur < u.b ==> Waiting(Turn(u, cur, now), start, d, t1)
    ensures cur >= u.b ==>
              Turn(u, cur, now).over && Turn(u, cur, now).again == u.again + if cur >= u.a.expire then 1 else 0
  {
    if u.again > 0 {
      FewDoublings(u.again, d, t1);
    }
    TimerADeadlines(start, t1, u.again, now);
  }

  /** Timer B is served in the `k`-th turn: the first that comes when its deadline has passed. */
  predicate FirstLate(times: seq<nat>, k: nat, b: nat) {
    k < |times| && b <= times[k] && forall i :: 0 <= i < k ==> times[i] < b
  }

  lemma StartsWaiting(start: nat, d: nat, t1: nat)
    ensures Waiting(Calling(start, d, t1), start, d, t1)
  {
  }

  /** As long as no turn is late, timer B is not served. */
  lemma {:induction false} NotLate(u: Unanswered, times: seq<nat>, start: nat, d: nat, t1: nat)
    requires Waiting(u, start, d, t1) && d < 63 * t1 && forall i :: 0 <= i < |times| ==> times[i] < u.b
    ensures Waiting(Turns(u, times), start, d, t1) && Turns(u, times).again <= 6
    decreases |times|
  {
    if times == [] {
      WaitingOn(u, 0, 0, start, d, t1);
    } else {
      WaitingOn(u, times[0], times[0], start, d, t1);
      NotLate(Turn(u, times[0], times[0]), times[1..], start, d, t1);
    }
  }

  lemma {:induction false} TurnsOn(u: Unanswered, a: seq<nat>, b: seq<nat>)
    ensures Turns(u, a + b) == Turns(Turns(u, a), b)
    decreases |a|
  {
    if a == [] {
      assert a + b == b;
    } else {
      assert (a + b)[1..] == a[1..] + b && (a + b)[0] == a[0];
      TurnsOn(Turn(u, a[0], a[0]), a[1..], b);
    }
  }

  lemma FirstLateIs(times: seq<nat>, b: nat) returns (k: nat)
    requires exists i :: 0 <= i < |times| && b <= times[i]
    ensures FirstLate(times, k, b)
  {
    k := 0;
    while times[k] < b
      invariant k < |times| && forall i :: 0 <= i < k ==> times[i] < b
      decreases |times| - k
    {
      k := k + 1;
    }
  }

  /** In the turn that serves timer B timer A goes first. */
  lemma LateTurn(u: Unanswered, times: seq<nat>, k: nat, start: nat, d: nat, t1: nat)
    requires Waiting(u, start, d, t1) && d < 63 * t1 && FirstLate(times, k, u.b)
    ensures var v := Turns(u, times[..k]);
            Waiting(v, start, d, t1) && v.again <= 6 && Turns(u, times).over
            && Turns(u, times).again == v.again + if times[k] >= v.a.expire then 1 else 0
  {
    var before, v := times[..k], Turns(u, times[..k]);
    NotLate(u, before, start, d, t1);
    WaitingOn(v, times[k], times[k], start, d, t1);
    assert times == before + times[k..] && times[k..][0] == times[k];
    TurnsOn(u, before, times[k..]);
    OverStays(Turn(v, times[k], times[k]), times[k..][1..]);
  }

  /**
   However irregularly the loop comes round, an INVITE is sent again at most six times before the turn that
   serves timer B, which is the first one that is late for it.  There is a seventh time, in that turn, exactly when six
   went before and the turn comes as late as start + 127 T1.
   */
  lemma {:induction false} Retransmissions(times: seq<nat>, start: nat, d: nat, t1: nat) returns (k: nat)
    requires d < 63 * t1
    ensures var u := Calling(start, d, t1); var r := Turns(u, times);
            r.over <==> exists i :: 0 <= i < |times| && u.b <= times[i]
    ensures !Turns(Calling(start, d, t1), times).over ==> Turns(Calling(start, d, t1), times).again <= 6
    ensures var u := Calling(start, d, t1); var r := Turns(u, times);
            r.over ==>
              FirstLate(times, k, u.b) && Turns(u, times[..k]).again <= 6 && !Turns(u, times[..k]).over
              && (r.again == 7 <==> Turns(u, times[..k]).again == 6 && times[k] >= start + 127 * t1)
  {
    var u := Calling(start, d, t1);
    StartsWaiting(start, d, t1);
    k := 0;
    if i :| 0 <= i < |times| && u.b <= times[i] {
      k := FirstLateIs(times, u.b);
      LateTurn(u, times, k, start, d, t1);
      assert Pow2(7) == 128;
    } else {
      NotLate(u, times, start, d, t1);
    }
  }

  /** The turns in which timer A is served `k` times, each at its deadline. */
  function Prompt(start: nat, t1: nat, k: nat): (times: seq<nat>)
    ensures |times| == k
  {
    if k == 0 then [] else Prompt(start, t1, k - 1) + [start + (Pow2(k) - 1) * t1]
  }

  lemma {:induction false} PromptServes(start: nat, d: nat, t1: nat, k: nat)
    requires k <= 6 && t1 > 0
    ensures var u := Turns(Calling(start, d, t1), Prompt(start, t1, k));
            Waiting(u, start, d, t1) && u.again == k
            && forall i :: 0 <= i < k ==> Prompt(start, t1, k)[i] < start + d + 64 * t1
  {
    if k > 0 {
      PromptServes(start, d, t1, k - 1);
      var before := Prompt(start, t1, k - 1);
      var v := Turns(Calling(start, d, t1), before);
      var cur := start + (Pow2(k) - 1) * t1;
      TurnsOn(Calling(start, d, t1), before, [cur]);
      assert [cur][1..] == [];
      PowGrows(k, 6);
      assert Pow2(6) == 64;
      Times(Pow2(k) - 1, 63, t1);
      TimerADeadlines(start, t1, k - 1, cur);
    }
  }

  /** It can happen: six retransmissions in time, and then no turn before start + 127 T1. */
  lemma {:induction false} SeventhHappens(start: nat, d: nat, t1: nat)
    requires 0 < t1 && d < 63 * t1
    ensures Turns(Calling(start, d, t1), Prompt(start, t1, 6) + [start + 127 * t1]).again == 7
  {
    var times := Prompt(start, t1, 6) + [start + 127 * t1];
    PromptServes(start, d, t1, 6);
    assert times[..6] == Prompt(start, t1, 6) && times[6] == start + 127 * t1;
    assert FirstLate(times, 6, start + d + 64 * t1);
    StartsWaiting(start, d, t1);
    LateTurn(Calling(start, d, t1), times, 6, start, d, t1);
    assert Pow2(7) == 128;
  }

  lemma {:induction false} OverStays(u: Unanswered, times: seq<nat>)
    requires u.over
    ensures Turns(u, times) == u
    decreases |times|
  {
    if times != [] {
      OverStays(u, times[1..]);
    }
  }

  // ---------------------------------------------------------------- timers E and G

  /** The period after `k` retransmissions. */
  function Backoff(t1: nat, t2: nat, k: nat): nat {
    if k == 0 then t1 else Min(2 * Backoff(t1, t2, k - 1), t2)
  }

  function BackoffDeadline(start: nat, t1: nat, t2: nat, k: nat): nat {
    if k == 0 then start + t1 else BackoffDeadline(start, t1, t2, k - 1) + Backoff(t1, t2, k)
  }

  /** Periods double up to T2. */
  lemma {:induction false} BackoffIs(t1: nat, t2: nat, k: nat)
    requires k > 0
    ensures Backoff(t1, t2, k) == Min(Pow2(k) * t1, t2)
  {
    if k > 1 {
      BackoffIs(t1, t2, k - 1);
      Distribute(Pow2(k - 1), Pow2(k - 1), t1);
    } else {
      assert Pow2(1) == 2;
    }
  }

  /** Timers E and G do not drift either. */
  lemma BackoffServed(start: nat, t1: nat, t2: nat, k: nat, now: nat)
    ensures var t := Timer(BackoffDeadline(start, t1, t2, k), Backoff(t1, t2, k), false);
            Served(t, now, Min(2 * t.timeout, t2))
            == Timer(BackoffDeadline(start, t1, t2, k + 1), Backoff(t1, t2, k + 1), false)
  {
  }

  // ---------------------------------------------------------------- timer E, once a provisional response came

  /**
   One service of timer E: when, and whether in state Proceeding, where the new period is T2 whatever the old one was.
   */
  datatype Service = Service(now: nat, proceeding: bool)

  function ServedE(t: Timer, turns: seq<Service>, t2: nat): Timer {
    if turns == [] then t
    else
      var u, last := ServedE(t, turns[..|turns| - 1], t2), turns[|turns| - 1];
      Served(u, last.now, if last.proceeding then t2 else Min(2 * u.timeout, t2))
  }

  /** The first `k` services in Trying, the others in Proceeding. */
  predicate Provisional(turns: seq<Service>, k: nat) {
    k <= |turns| && forall i :: 0 <= i < |turns| ==> (turns[i].proceeding <==> i >= k)
  }

  /**
   However late each service comes, after `k` retransmissions in Trying and `j` in Proceeding timer E is due `j`
   times T2 after the deadline of the backoff: T2 apart from the next one on.
   */
  lemma {:induction false} ProceedingDeadlines(start: nat, t1: nat, t2: nat, turns: seq<Service>, k: nat)
    requires Provisional(turns, k)
    ensures ServedE(Started(start, t1), turns, t2)
            == Timer(BackoffDeadline(start, t1, t2, k) + (|turns| - k) * t2,
                     if |turns| == k then Backoff(t1, t2, k) else t2, false)
    decreases |turns|
  {
    if turns != [] {
      var init := turns[..|turns| - 1];
      if |turns| == k {
        ProceedingDeadlines(start, t1, t2, init, k - 1);
        BackoffServed(start, t1, t2, k - 1, turns[k - 1].now);
      } else {
        ProceedingDeadlines(start, t1, t2, init, k);
        Distribute(|init| - k, 1, t2);
      }
    }
  }
}
