/** Consecutive-duplicate suppression of src/aggregate.cpp, as atomic steps of any number of
    threads, and as it behaves when ticks do not overlap. */
module Dedups {

  /** A call site: how many calls wait for a summary; whether a thread has claimed the right to
      store the site's identity, and whether it has. */
  datatype Site = Site(suppressed: nat, claimed: bool, named: bool)

  /** What a thread goes on to do after a summary. */
  datatype Then = Return | FlushFrom(next: nat)

  datatype Pc =
    | Idle
    | Ticking(s: nat)                 // tick is entered
    | Naming(s: nat)                  // the claim is won, the identity not stored yet
    | Looking(s: nat)                 // before g_last_dedup is read
    | Hit(s: nat)                     // it was this site
    | Missed(s: nat)                  // it was not
    | Emptying(s: nat, then_: Then)   // flush_summary is entered for site s
    | InHand(s: nat, n: nat, then_: Then)  // n has been taken out of it
    | Clearing                        // all summaries are out, g_last_dedup not cleared yet

  /** What became of the calls of a site. */
  datatype Tally = Tally(calls: nat, passed: nat, reported: nat, discarded: nat)

  /** last is the site in g_last_dedup, or -1. */
  datatype State = State(sites: seq<Site>, last: int, threads: seq<Pc>, tallies: seq<Tally>)

  predicate WellFormedPc(pc: Pc, n: nat) {
    match pc
    case Idle => true
    case Clearing => true
    case _ => pc.s < n
  }

  predicate WellFormed(st: State) {
    && |st.tallies| == |st.sites| && -1 <= st.last < |st.sites|
    && forall t :: 0 <= t < |st.threads| ==> WellFormedPc(st.threads[t], |st.sites|)
  }

  predicate Init(st: State) {
    && WellFormed(st) && st.last == -1
    && (forall t :: 0 <= t < |st.threads| ==> st.threads[t] == Idle)
    && (forall s :: 0 <= s < |st.sites| ==> st.sites[s] == Site(0, false, false) && st.tallies[s] == Tally(0, 0, 0, 0))
  }

  function Resume(then_: Then, n: nat): Pc {
    match then_
    case Return => Idle
    case FlushFrom(k) => if k < n then Emptying(k, FlushFrom(k + 1)) else Clearing
  }

  /** The next atomic step of thread t. What the environment decides: which site is called, or
      that all are to be flushed, and whether the logger is enabled when a summary is due. */
  datatype Move = Call(site: nat) | CallFlush | Go(enabled: bool)

  function GoTo(st: State, t: nat, pc: Pc): State
    requires t < |st.threads|
  {
    st.(threads := st.threads[t := pc])
  }

  function Step(st: State, t: nat, m: Move): State
    requires WellFormed(st) && t < |st.threads|
  {
    var n := |st.sites|;
    match (st.threads[t], m)
    case (Idle, Call(s)) => if s < n then GoTo(st, t, Ticking(s)) else st
    case (Idle, CallFlush) => GoTo(st, t, Resume(FlushFrom(0), n))
    case (Ticking(s), Go(_)) =>
      if st.sites[s].claimed then GoTo(st, t, Looking(s))
      else GoTo(st.(sites := st.sites[s := st.sites[s].(claimed := true)]), t, Naming(s))
    case (Naming(s), Go(_)) =>
      GoTo(st.(sites := st.sites[s := st.sites[s].(named := true)]), t, Looking(s))
    case (Looking(s), Go(_)) =>
      GoTo(st, t, if st.last == s then Hit(s) else Missed(s))
    case (Hit(s), Go(_)) =>
      GoTo(st.(sites := st.sites[s := st.sites[s].(suppressed := st.sites[s].suppressed + 1)],
               tallies := st.tallies[s := st.tallies[s].(calls := st.tallies[s].calls + 1)]), t, Idle)
    case (Missed(s), Go(_)) =>
      var prev := st.last;
      var tally := st.tallies[s];
      GoTo(st.(last := s, tallies := st.tallies[s := tally.(calls := tally.calls + 1, passed := tally.passed + 1)]),
           t, if prev != -1 && prev != s then Emptying(prev, Return) else Idle)
    case (Emptying(s, then_), Go(_)) =>
      var k := st.sites[s].suppressed;
      GoTo(st.(sites := st.sites[s := st.sites[s].(suppressed := 0)]),
           t, if k == 0 then Resume(then_, n) else InHand(s, k, then_))
    case (InHand(s, k, then_), Go(enabled)) =>
      var tally := st.tallies[s];
      GoTo(st.(tallies := st.tallies[s := if st.sites[s].named && enabled then tally.(reported := tally.reported + k)
                                          else tally.(discarded := tally.discarded + k)]),
           t, Resume(then_, n))
    case (Clearing, Go(_)) => GoTo(st.(last := -1), t, Idle)
    case _ => st
  }

  /** Calls of site s that some thread has taken out and not yet accounted for. */
  function Held(threads: seq<Pc>, s: nat): nat {
    if threads == [] then 0
    else Held(threads[..|threads| - 1], s) + HeldBy(threads[|threads| - 1], s)
  }

  function HeldBy(pc: Pc, s: nat): nat {
    if pc.InHand? && pc.s == s then pc.n else 0
  }

  lemma {:induction false} HeldUpdate(threads: seq<Pc>, t: nat, pc: Pc, s: nat)
    requires t < |threads|
    ensures Held(threads[t := pc], s) + HeldBy(threads[t], s) == Held(threads, s) + HeldBy(pc, s)
  {
    var front := threads[..|threads| - 1];
    if t == |threads| - 1 {
      assert threads[t := pc][..|threads| - 1] == front;
    } else {
      HeldUpdate(front, t, pc, s);
      assert threads[t := pc][..|threads| - 1] == front[t := pc];
    }
  }

  /** Every call of a site has been passed on, waits, is in hand, or has been reported or
      discarded. */
  predicate Conserved(st: State, s: nat)
    requires WellFormed(st) && s < |st.sites|
  {
    var c := st.tallies[s];
    c.calls == c.passed + st.sites[s].suppressed + Held(st.threads, s) + c.reported + c.discarded
  }

  lemma StepWellFormed(st: State, t: nat, m: Move)
    requires WellFormed(st) && t < |st.threads|
    ensures var st' := Step(st, t, m);
            WellFormed(st') && |st'.sites| == |st.sites| && |st'.threads| == |st.threads|
  {
  }

  /** What a step of thread t changes at site s, it changes within the sum. */
  lemma StepBalances(st: State, t: nat, m: Move, s: nat)
    requires WellFormed(st) && t < |st.threads| && s < |st.sites|
    ensures var st' := Step(st, t, m);
            && |st'.sites| == |st'.tallies| == |st.sites| && |st'.threads| == |st.threads|
            && var c, c' := st.tallies[s], st'.tallies[s];
               c'.calls + c.passed + st.sites[s].suppressed + HeldBy(st.threads[t], s) + c.reported + c.discarded
               == c.calls + c'.passed + st'.sites[s].suppressed + HeldBy(st'.threads[t], s) + c'.reported + c'.discarded
  {
  }

  lemma StepConserves(st: State, t: nat, m: Move, s: nat)
    requires WellFormed(st) && t < |st.threads| && s < |st.sites| && Conserved(st, s)
    ensures WellFormed(Step(st, t, m)) && |Step(st, t, m).sites| == |st.sites| && Conserved(Step(st, t, m), s)
  {
    StepWellFormed(st, t, m);
    StepBalances(st, t, m, s);
    StepThreads(st, t, m);
    HeldUpdate(st.threads, t, Step(st, t, m).threads[t], s);
    hide Held, HeldBy, Step;
  }

  lemma StepThreads(st: State, t: nat, m: Move)
    requires WellFormed(st) && t < |st.threads|
    ensures var st' := Step(st, t, m);
            |st'.threads| == |st.threads| && st'.threads == st.threads[t := st'.threads[t]]
  {
  }

  function Run(st: State, who: seq<nat>, moves: seq<Move>): State
    requires WellFormed(st) && |who| == |moves| && forall i :: 0 <= i < |who| ==> who[i] < |st.threads|
    ensures WellFormed(Run(st, who, moves)) && |Run(st, who, moves).threads| == |st.threads|
    ensures |Run(st, who, moves).sites| == |st.sites|
  {
    if who == [] then st
    else
      var k := |who| - 1;
      var m := Run(st, who[..k], moves[..k]);
      StepWellFormed(m, who[k], moves[k]);
      Step(m, who[k], moves[k])
  }

  /** Over every interleaving of the atomic steps no call is lost or counted twice; once all threads
      are idle nothing is in hand. */
  lemma {:induction false} EveryRunConserves(st: State, who: seq<nat>, moves: seq<Move>, s: nat)
    requires Init(st) && |who| == |moves| && (forall i :: 0 <= i < |who| ==> who[i] < |st.threads|) && s < |st.sites|
    ensures Conserved(Run(st, who, moves), s)
    ensures var e := Run(st, who, moves);
            (forall t :: 0 <= t < |e.threads| ==> e.threads[t] == Idle) ==>
              e.tallies[s].calls
                == e.tallies[s].passed + e.sites[s].suppressed + e.tallies[s].reported + e.tallies[s].discarded
    decreases |who|
  {
    hide Held, HeldBy, Step;
    if who == [] {
      NothingHeld(st.threads, s);
    } else {
      var k := |who| - 1;
      EveryRunConserves(st, who[..k], moves[..k], s);
      StepConserves(Run(st, who[..k], moves[..k]), who[k], moves[k], s);
    }
    var e := Run(st, who, moves);
    if forall t :: 0 <= t < |e.threads| ==> e.threads[t] == Idle { NothingHeld(e.threads, s); }
  }

  lemma {:induction false} NothingHeld(threads: seq<Pc>, s: nat)
    requires forall t :: 0 <= t < |threads| ==> threads[t] == Idle
    ensures Held(threads, s) == 0
  {
    if threads != [] { NothingHeld(threads[..|threads| - 1], s); }
  }

  /** Who has passed the gate of site s. */
  predicate Inside(pc: Pc, s: nat) {
    match pc
    case Naming(x) => x == s
    case Looking(x) => x == s
    case Hit(x) => x == s
    case Missed(x) => x == s
    case InHand(x, _, _) => x == s
    case _ => false
  }

  /** A site that has had a call is claimed. */
  predicate ClaimedFirst(st: State, s: nat)
    requires WellFormed(st) && s < |st.sites|
  {
    !st.sites[s].claimed ==>
      && st.sites[s].suppressed == 0 && st.last != s && !st.sites[s].named
      && forall t :: 0 <= t < |st.threads| ==> !Inside(st.threads[t], s)
  }

  /** A claimed site has no identity exactly while one thread, and no other, is storing it. */
  predicate NamedSoon(st: State, s: nat)
    requires WellFormed(st) && s < |st.sites|
  {
    && (st.sites[s].claimed ==> (!st.sites[s].named <==> Naming(s) in st.threads))
    && forall t, u :: 0 <= t < u < |st.threads| ==> st.threads[t] != Naming(s) || st.threads[u] != Naming(s)
  }

  predicate SomethingInHand(st: State) {
    forall t :: 0 <= t < |st.threads| && st.threads[t].InHand? ==> st.threads[t].n > 0
  }

  lemma StepClaimedFirst(st: State, t: nat, m: Move, s: nat)
    requires WellFormed(st) && t < |st.threads| && s < |st.sites| && ClaimedFirst(st, s) && SomethingInHand(st)
    ensures WellFormed(Step(st, t, m)) && |Step(st, t, m).sites| == |st.sites| && ClaimedFirst(Step(st, t, m), s)
    ensures SomethingInHand(Step(st, t, m))
  {
    StepWellFormed(st, t, m);
  }

  lemma StepNamedSoon(st: State, t: nat, m: Move, s: nat)
    requires WellFormed(st) && t < |st.threads| && s < |st.sites| && ClaimedFirst(st, s) && NamedSoon(st, s)
    ensures WellFormed(Step(st, t, m)) && |Step(st, t, m).sites| == |st.sites| && NamedSoon(Step(st, t, m), s)
  {
    StepWellFormed(st, t, m);
    var st' := Step(st, t, m);
    var pc, pc', site, site' := st.threads[t], st'.threads[t], st.sites[s], st'.sites[s];
    assert st'.threads == st.threads[t := pc'];
    if pc == Naming(s) && m.Go? {
      assert site'.named && pc' == Looking(s);
    } else if pc == Ticking(s) && m.Go? && !site.claimed {
      assert site' == site.(claimed := true) && pc' == Naming(s);
    } else {
      assert site'.claimed == site.claimed && site'.named == site.named;
      assert pc == Naming(s) <==> pc' == Naming(s);
      SameNaming(st.threads, t, pc', s);
    }
  }

  lemma SameNaming(threads: seq<Pc>, t: nat, pc: Pc, s: nat)
    requires t < |threads| && (threads[t] == Naming(s) <==> pc == Naming(s))
    ensures Naming(s) in threads <==> Naming(s) in threads[t := pc]
  {
    if Naming(s) in threads {
      var u :| 0 <= u < |threads| && threads[u] == Naming(s);
      assert threads[t := pc][u] == Naming(s);
    }
  }

  lemma {:induction false} EveryRunNamedSoon(st: State, who: seq<nat>, moves: seq<Move>, s: nat)
    requires Init(st) && |who| == |moves| && (forall i :: 0 <= i < |who| ==> who[i] < |st.threads|) && s < |st.sites|
    ensures var e := Run(st, who, moves); ClaimedFirst(e, s) && NamedSoon(e, s) && SomethingInHand(e)
    decreases |who|
  {
    if who != [] {
      var k := |who| - 1;
      EveryRunNamedSoon(st, who[..k], moves[..k], s);
      var e := Run(st, who[..k], moves[..k]);
      StepClaimedFirst(e, who[k], moves[k], s);
      StepNamedSoon(e, who[k], moves[k], s);
    }
  }

  /** In every run, a summary is thrown away exactly when the logger is disabled, or while another
      thread has won the claim of the site and has not stored its identity yet. */
  lemma DiscardedIff(st: State, who: seq<nat>, moves: seq<Move>, t: nat, enabled: bool, s: nat)
    requires Init(st) && |who| == |moves| && (forall i :: 0 <= i < |who| ==> who[i] < |st.threads|)
    requires t < |st.threads| && s < |st.sites|
    ensures var e := Run(st, who, moves);
            var e' := Step(e, t, Go(enabled));
            |e'.tallies| == |st.sites| == |e.tallies| &&
            (e'.tallies[s].discarded > e.tallies[s].discarded <==>
              && e.threads[t].InHand? && e.threads[t].s == s
              && (!enabled || exists u :: 0 <= u < |e.threads| && u != t && e.threads[u] == Naming(s)))
  {
    EveryRunNamedSoon(st, who, moves, s);
    var e := Run(st, who, moves);
    StepWellFormed(e, t, Go(enabled));
    if Naming(s) in e.threads {
      var u :| 0 <= u < |e.threads| && e.threads[u] == Naming(s);
    }
  }

  lemma OneMore(st: State, who: seq<nat>, moves: seq<Move>, t: nat, m: Move) returns (who': seq<nat>, moves': seq<Move>)
    requires WellFormed(st) && |who| == |moves| && t < |st.threads|
    requires forall i :: 0 <= i < |who| ==> who[i] < |st.threads|
    ensures who' == who + [t] && moves' == moves + [m] && forall i :: 0 <= i < |who'| ==> who'[i] < |st.threads|
    ensures Run(st, who', moves') == Step(Run(st, who, moves), t, m)
  {
    who', moves' := who + [t], moves + [m];
    assert who'[..|who|] == who && moves'[..|who|] == moves;
  }

  /** Thread t goes on n times with an enabled logger. */
  function GoOn(st: State, t: nat, n: nat): (e: State)
    requires WellFormed(st) && t < |st.threads|
    ensures WellFormed(e) && |e.sites| == |st.sites| && |e.threads| == |st.threads|
    decreases n
  {
    if n == 0 then st
    else
      StepWellFormed(st, t, Go(true));
      GoOn(Step(st, t, Go(true)), t, n - 1)
  }

  lemma {:induction false} SomeMore(st: State, who: seq<nat>, moves: seq<Move>, t: nat, n: nat)
    returns (who': seq<nat>, moves': seq<Move>)
    requires WellFormed(st) && |who| == |moves| && t < |st.threads|
    requires forall i :: 0 <= i < |who| ==> who[i] < |st.threads|
    ensures |who'| == |moves'| && who <= who' && moves <= moves'
    ensures forall i :: 0 <= i < |who'| ==> who'[i] < |st.threads|
    ensures forall i :: |moves| <= i < |moves'| ==> moves'[i] == Go(true)
    ensures Run(st, who', moves') == GoOn(Run(st, who, moves), t, n)
    decreases n
  {
    if n == 0 { return who, moves; }
    who', moves' := OneMore(st, who, moves, t, Go(true));
    who', moves' := SomeMore(st, who', moves', t, n - 1);
  }

  /** Thread 0 has claimed site 0 and pauses before it stores the identity; thread 1 is at pc. */
  function Paused(waiting: nat, last: int, pc: Pc, tally: Tally): State {
    State([Site(waiting, true, false), Site(0, false, false)], last, [Naming(0), pc], [tally, Tally(0, 0, 0, 0)])
  }

  lemma GoFurther(st: State, t: nat, n: nat, st': State)
    requires WellFormed(st) && t < |st.threads| && st' == Step(st, t, Go(true)) && n > 0
    ensures WellFormed(st') && |st'.threads| == |st.threads| && GoOn(st, t, n) == GoOn(st', t, n - 1)
  {
  }

  lemma GoNowhere(st: State, t: nat)
    requires WellFormed(st) && t < |st.threads|
    ensures GoOn(st, t, 0) == st
  {
  }

  lemma FirstPasses()
    ensures var st := Paused(0, -1, Idle, Tally(0, 0, 0, 0));
            WellFormed(st) && GoOn(Step(st, 1, Call(0)), 1, 3) == Paused(0, 0, Idle, Tally(1, 1, 0, 0))
  {
    hide GoOn;
    var none := Tally(0, 0, 0, 0);
    assert Step(Paused(0, -1, Idle, none), 1, Call(0)) == Paused(0, -1, Ticking(0), none);
    GoFurther(Paused(0, -1, Ticking(0), none), 1, 3, Paused(0, -1, Looking(0), none));
    GoFurther(Paused(0, -1, Looking(0), none), 1, 2, Paused(0, -1, Missed(0), none));
    GoFurther(Paused(0, -1, Missed(0), none), 1, 1, Paused(0, 0, Idle, Tally(1, 1, 0, 0)));
    GoNowhere(Paused(0, 0, Idle, Tally(1, 1, 0, 0)), 1);
  }

  lemma SecondWaits()
    ensures var st := Paused(0, 0, Idle, Tally(1, 1, 0, 0));
            WellFormed(st) && GoOn(Step(st, 1, Call(0)), 1, 3) == Paused(1, 0, Idle, Tally(2, 1, 0, 0))
  {
    hide GoOn;
    var one := Tally(1, 1, 0, 0);
    assert Step(Paused(0, 0, Idle, one), 1, Call(0)) == Paused(0, 0, Ticking(0), one);
    GoFurther(Paused(0, 0, Ticking(0), one), 1, 3, Paused(0, 0, Looking(0), one));
    GoFurther(Paused(0, 0, Looking(0), one), 1, 2, Paused(0, 0, Hit(0), one));
    GoFurther(Paused(0, 0, Hit(0), one), 1, 1, Paused(1, 0, Idle, Tally(2, 1, 0, 0)));
    GoNowhere(Paused(1, 0, Idle, Tally(2, 1, 0, 0)), 1);
  }

  lemma OtherSiteDiscards()
    ensures var st := Paused(1, 0, Idle, Tally(2, 1, 0, 0));
            WellFormed(st) && GoOn(Step(st, 1, Call(1)), 1, 6).tallies[0] == Tally(2, 1, 0, 1)
  {
  }

  /** It does happen, with loggers that are always enabled. Thread 0 claims site 0 and pauses. Thread 1
      calls it twice, the second call waits, and a call of site 1 throws its summary away. */
  lemma DiscardedWhileNaming() returns (who: seq<nat>, moves: seq<Move>)
    ensures |who| == |moves| && (forall i :: 0 <= i < |who| ==> who[i] < 2)
    ensures forall m <- moves :: m.Go? ==> m.enabled
    ensures var st := State([Site(0, false, false), Site(0, false, false)], -1, [Idle, Idle],
                            [Tally(0, 0, 0, 0), Tally(0, 0, 0, 0)]);
            Init(st) && Run(st, who, moves).tallies[0] == Tally(2, 1, 0, 1)
  {
    FirstPasses();
    SecondWaits();
    OtherSiteDiscards();
    hide GoOn, Run;
    var st := State([Site(0, false, false), Site(0, false, false)], -1, [Idle, Idle],
                    [Tally(0, 0, 0, 0), Tally(0, 0, 0, 0)]);
    who, moves := [], [];
    RunNothing(st);
    who, moves := OneMore(st, who, moves, 0, Call(0));
    who, moves := OneMore(st, who, moves, 0, Go(true));
    assert Run(st, who, moves) == Paused(0, -1, Idle, Tally(0, 0, 0, 0));
    hide Step;
    who, moves := OneMore(st, who, moves, 1, Call(0));
    who, moves := SomeMore(st, who, moves, 1, 3);
    who, moves := OneMore(st, who, moves, 1, Call(0));
    who, moves := SomeMore(st, who, moves, 1, 3);
    who, moves := OneMore(st, who, moves, 1, Call(1));
    who, moves := SomeMore(st, who, moves, 1, 6);
  }

  lemma RunNothing(st: State)
    requires WellFormed(st)
    ensures Run(st, [], []) == st
  {
  }

  /** Where threads are while only site s is called and it is the last one that fired. */
  predicate OnlySite(st: State, s: nat)
    requires WellFormed(st) && s < |st.sites|
  {
    && st.last == s
    && forall t :: 0 <= t < |st.threads| ==>
         var pc := st.threads[t];
         pc == Idle || pc == Ticking(s) || pc == Naming(s) || pc == Looking(s) || pc == Hit(s)
  }

  lemma StepOnlySite(st: State, t: nat, m: Move, s: nat)
    requires WellFormed(st) && t < |st.threads| && s < |st.sites| && OnlySite(st, s) && (m == Call(s) || m.Go?)
    ensures var e := Step(st, t, m);
            && WellFormed(e) && |e.sites| == |st.sites| && OnlySite(e, s)
            && st.sites[s].suppressed <= e.sites[s].suppressed
            && e.tallies[s].reported == st.tallies[s].reported && e.tallies[s].discarded == st.tallies[s].discarded
  {
    StepWellFormed(st, t, m);
  }

  /** Nothing but a call of another site, or a call that flushes all sites, brings a waiting summary
      out: without those it only grows, in every run. */
  lemma {:induction false} StaysWaiting(st: State, who: seq<nat>, moves: seq<Move>, s: nat)
    requires WellFormed(st) && s < |st.sites| && OnlySite(st, s)
    requires |who| == |moves|
    requires forall i :: 0 <= i < |who| ==> who[i] < |st.threads| && (moves[i] == Call(s) || moves[i].Go?)
    ensures var e := Run(st, who, moves);
            && OnlySite(e, s) && st.sites[s].suppressed <= e.sites[s].suppressed
            && e.tallies[s].reported == st.tallies[s].reported && e.tallies[s].discarded == st.tallies[s].discarded
    decreases |who|
  {
    if who != [] {
      var k := |who| - 1;
      StaysWaiting(st, who[..k], moves[..k], s);
      StepOnlySite(Run(st, who[..k], moves[..k]), who[k], moves[k], s);
    }
  }
}
