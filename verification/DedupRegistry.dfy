/** The registry of src/aggregate.cpp as it behaves when ticks do not overlap: each call is a run of
    the one thread that makes it. */
module DedupRegistries {
  import opened Dedups

  // ---------------------------------------------------------------- calls as runs of one thread

  /** The only thread takes these steps. */
  ghost predicate Alone(st: State, moves: seq<Move>, st': State) {
    WellFormed(st) && |st.threads| == 1 && st' == Run(st, seq(|moves|, _ => 0), moves)
  }

  /** One call, and then steps of it until it is over. */
  predicate IsCall(moves: seq<Move>, call: Move, enabled: bool) {
    moves != [] && moves[0] == call && forall i :: 1 <= i < |moves| ==> moves[i] == Go(enabled)
  }

  lemma AloneOnce(st: State, m: Move)
    requires WellFormed(st) && |st.threads| == 1
    ensures Alone(st, [m], Step(st, 0, m))
  {
    RunNothing(st);
    var _, _ := OneMore(st, [], [], 0, m);
    assert seq(1, _ => 0) == [] + [0] && [] + [m] == [m];
  }

  lemma AloneOn(st: State, moves: seq<Move>, st1: State, m: Move, st2: State)
    requires Alone(st, moves, st1) && st2 == Step(st1, 0, m)
    ensures Alone(st, moves + [m], st2)
  {
    var zeros := seq(|moves|, _ => 0);
    var _, _ := OneMore(st, zeros, moves, 0, m);
    assert zeros + [0] == seq(|moves| + 1, _ => 0);
  }

  /** What `flush_summary` of site s makes of the state. */
  function Emptied(st: State, s: nat, enabled: bool): State
    requires WellFormed(st) && s < |st.sites|
  {
    var k, tally := st.sites[s].suppressed, st.tallies[s];
    st.(sites := st.sites[s := st.sites[s].(suppressed := 0)],
        tallies := st.tallies[s := if st.sites[s].named && enabled then tally.(reported := tally.reported + k)
                                   else tally.(discarded := tally.discarded + k)])
  }

  function At(st: State, pc: Pc): State {
    st.(threads := [pc])
  }

  lemma EmptiedIsRun(st: State, moves: seq<Move>, call: Move, x: State, s: nat, then_: Then, enabled: bool)
    returns (moves': seq<Move>)
    requires IsCall(moves, call, enabled) && WellFormed(x) && s < |x.sites|
    requires Alone(st, moves, At(x, Emptying(s, then_)))
    ensures IsCall(moves', call, enabled)
    ensures Alone(st, moves', At(Emptied(x, s, enabled), Resume(then_, |x.sites|)))
  {
    hide Alone, IsCall;
    var k := x.sites[s].suppressed;
    var y := x.(sites := x.sites[s := x.sites[s].(suppressed := 0)]);
    var st1 := At(x, Emptying(s, then_));
    var st2 := At(y, if k == 0 then Resume(then_, |x.sites|) else InHand(s, k, then_));
    assert st2 == Step(st1, 0, Go(enabled));
    moves' := GoOnce(st, moves, call, st1, st2, enabled);
    var st3 := At(Emptied(x, s, enabled), Resume(then_, |x.sites|));
    if k == 0 {
      assert x.tallies[s := x.tallies[s]] == x.tallies;
      assert st3 == st2;
    } else {
      assert st3 == Step(st2, 0, Go(enabled));
      moves' := GoOnce(st, moves', call, st2, st3, enabled);
    }
  }

  lemma GoOnce(st: State, moves: seq<Move>, call: Move, st1: State, st2: State, enabled: bool)
      returns (moves': seq<Move>)
    requires IsCall(moves, call, enabled) && Alone(st, moves, st1) && st2 == Step(st1, 0, Go(enabled))
    ensures IsCall(moves', call, enabled) && Alone(st, moves', st2)
  {
    moves' := moves + [Go(enabled)];
    AloneOn(st, moves, st1, Go(enabled), st2);
  }

  /** What `tick` of site s makes of the state. */
  function Ticked(st: State, s: nat, enabled: bool): State
    requires WellFormed(st) && s < |st.sites|
  {
    var st1, tally := Named(st, s), st.tallies[s];
    if st.last == s then
      st1.(sites := st1.sites[s := st1.sites[s].(suppressed := st1.sites[s].suppressed + 1)],
           tallies := st.tallies[s := tally.(calls := tally.calls + 1)])
    else
      var st2 := st1.(last := s,
                      tallies := st.tallies[s := tally.(calls := tally.calls + 1, passed := tally.passed + 1)]);
      if st.last == -1 then st2 else Emptied(st2, st.last, enabled)
  }

  function Named(st: State, s: nat): (e: State)
    requires WellFormed(st) && s < |st.sites|
    ensures WellFormed(e) && |e.sites| == |st.sites| && e.tallies == st.tallies && e.last == st.last
    ensures e.threads == st.threads
  {
    if st.sites[s].claimed then st else st.(sites := st.sites[s := Site(st.sites[s].suppressed, true, true)])
  }

  lemma NamedIsRun(st: State, s: nat, enabled: bool) returns (moves: seq<Move>)
    requires WellFormed(st) && st.threads == [Idle] && s < |st.sites|
    ensures IsCall(moves, Call(s), enabled) && Alone(st, moves, At(Named(st, s), Looking(s)))
  {
    moves := [Call(s)];
    AloneOnce(st, Call(s));
    assert IsCall(moves, Call(s), enabled);
    hide Alone, IsCall;
    var st1 := At(st, Ticking(s));
    assert st1 == Step(st, 0, Call(s));
    if st.sites[s].claimed {
      moves := GoOnce(st, moves, Call(s), st1, At(st, Looking(s)), enabled);
    } else {
      var st2 := At(st.(sites := st.sites[s := st.sites[s].(claimed := true)]), Naming(s));
      assert st2 == Step(st1, 0, Go(enabled));
      moves := GoOnce(st, moves, Call(s), st1, st2, enabled);
      var st3 := At(Named(st, s), Looking(s));
      assert st3 == Step(st2, 0, Go(enabled));
      moves := GoOnce(st, moves, Call(s), st2, st3, enabled);
    }
  }

  lemma TickedIsRun(st: State, s: nat, enabled: bool) returns (moves: seq<Move>)
    requires WellFormed(st) && st.threads == [Idle] && s < |st.sites|
    ensures IsCall(moves, Call(s), enabled) && Alone(st, moves, Ticked(st, s, enabled))
  {
    moves := NamedIsRun(st, s, enabled);
    moves := LookedIsRun(st, moves, s, enabled);
  }

  lemma LookedIsRun(st: State, moves: seq<Move>, s: nat, enabled: bool) returns (moves': seq<Move>)
    requires WellFormed(st) && st.threads == [Idle] && s < |st.sites|
    requires IsCall(moves, Call(s), enabled) && Alone(st, moves, At(Named(st, s), Looking(s)))
    ensures IsCall(moves', Call(s), enabled) && Alone(st, moves', Ticked(st, s, enabled))
  {
    hide Alone, IsCall;
    var x := Named(st, s);
    var st1, tally := At(x, Looking(s)), st.tallies[s];
    hide Named;
    if st.last == s {
      moves' := GoOnce(st, moves, Call(s), st1, At(x, Hit(s)), enabled);
      moves' := GoOnce(st, moves', Call(s), At(x, Hit(s)), Ticked(st, s, enabled), enabled);
    } else {
      moves' := GoOnce(st, moves, Call(s), st1, At(x, Missed(s)), enabled);
      var y := x.(last := s, tallies := st.tallies[s := tally.(calls := tally.calls + 1, passed := tally.passed + 1)]);
      if st.last == -1 {
        moves' := GoOnce(st, moves', Call(s), At(x, Missed(s)), At(y, Idle), enabled);
      } else {
        moves' := GoOnce(st, moves', Call(s), At(x, Missed(s)), At(y, Emptying(st.last, Return)), enabled);
        moves' := EmptiedIsRun(st, moves', Call(s), y, st.last, Return, enabled);
      }
    }
  }

  /** What `flush_all` has made of the state after k sites. */
  function AllEmptied(st: State, k: nat, enabled: bool): (e: State)
    requires WellFormed(st) && k <= |st.sites|
    ensures WellFormed(e) && |e.sites| == |st.sites| && e.threads == st.threads && e.last == st.last
  {
    if k == 0 then st else Emptied(AllEmptied(st, k - 1, enabled), k - 1, enabled)
  }

  lemma {:induction false} AllEmptiedIsRun(st: State, k: nat, enabled: bool) returns (moves: seq<Move>)
    requires WellFormed(st) && st.threads == [Idle] && k <= |st.sites|
    ensures IsCall(moves, CallFlush, enabled)
    ensures Alone(st, moves, At(AllEmptied(st, k, enabled), Resume(FlushFrom(k), |st.sites|)))
  {
    if k == 0 {
      moves := [CallFlush];
      AloneOnce(st, CallFlush);
    } else {
      moves := AllEmptiedIsRun(st, k - 1, enabled);
      moves := EmptiedIsRun(st, moves, CallFlush, AllEmptied(st, k - 1, enabled), k - 1, FlushFrom(k), enabled);
    }
  }

  lemma FlushedIsRun(st: State, enabled: bool) returns (moves: seq<Move>)
    requires WellFormed(st) && st.threads == [Idle]
    ensures IsCall(moves, CallFlush, enabled)
    ensures Alone(st, moves, AllEmptied(st, |st.sites|, enabled).(last := -1))
  {
    var n := |st.sites|;
    moves := AllEmptiedIsRun(st, n, enabled);
    hide Alone, IsCall;
    var x := AllEmptied(st, n, enabled);
    moves := GoOnce(st, moves, CallFlush, At(x, Clearing), x.(last := -1), enabled);
  }

  /** Between calls: everything balances, claimed sites have their identity, and only the site that
      fired last can have calls waiting. */
  predicate Settled(st: State) {
    && WellFormed(st) && st.threads == [Idle]
    && forall i :: 0 <= i < |st.sites| ==>
         && Balanced(st, i) && st.sites[i].claimed == st.sites[i].named
         && (if i == st.last then st.sites[i].named else st.sites[i].suppressed == 0)
  }

  predicate Balanced(st: State, i: nat)
    requires WellFormed(st) && i < |st.sites|
  {
    var c := st.tallies[i];
    c.calls == c.passed + st.sites[i].suppressed + c.reported + c.discarded
  }

  lemma LastIsNamed(st: State)
    requires Settled(st)
    ensures st.last != -1 ==> st.sites[st.last].named
    ensures forall i :: 0 <= i < |st.sites| && st.sites[i].suppressed != 0 ==> st.sites[i].named
  {
  }

  lemma EmptiedBalances(st: State, s: nat, enabled: bool)
    requires WellFormed(st) && s < |st.sites| && forall i :: 0 <= i < |st.sites| ==> Balanced(st, i)
    ensures forall i :: 0 <= i < |st.sites| ==> Balanced(Emptied(st, s, enabled), i)
  {
    forall i | 0 <= i < |st.sites| ensures Balanced(Emptied(st, s, enabled), i) {
      assert Balanced(st, i);
    }
  }

  /** The sites after a tick. */
  function SiteAfter(st: State, i: nat, j: nat): Site
    requires WellFormed(st) && i < |st.sites| && j < |st.sites|
  {
    var site := st.sites[j];
    if j == i then
      Site(if st.last == i then site.suppressed + 1 else site.suppressed, true, !site.claimed || site.named)
    else if j == st.last then site.(suppressed := 0)
    else site
  }

  lemma TickedSites(st: State, i: nat, enabled: bool)
    requires WellFormed(st) && i < |st.sites|
    ensures var e := Ticked(st, i, enabled);
            && WellFormed(e) && e.last == i && e.threads == st.threads && |e.sites| == |st.sites|
            && forall j :: 0 <= j < |st.sites| ==> e.sites[j] == SiteAfter(st, i, j)
  {
  }

  lemma TickedSettled(st: State, i: nat, enabled: bool)
    requires Settled(st) && i < |st.sites|
    ensures Settled(Ticked(st, i, enabled))
  {
    TickedSites(st, i, enabled);
    var x, tally := Named(st, i), st.tallies[i];
    assert forall j :: 0 <= j < |x.sites| ==> Balanced(x, j);
    if st.last != i && st.last != -1 {
      var y := x.(last := i, tallies := st.tallies[i := tally.(calls := tally.calls + 1, passed := tally.passed + 1)]);
      assert forall j :: 0 <= j < |y.sites| ==> Balanced(y, j);
      EmptiedBalances(y, st.last, enabled);
    }
  }

  lemma {:induction false} AllEmptiedSites(st: State, k: nat, enabled: bool)
    requires WellFormed(st) && k <= |st.sites|
    ensures var e := AllEmptied(st, k, enabled);
            forall j :: 0 <= j < |st.sites| ==>
              e.sites[j] == if j < k then st.sites[j].(suppressed := 0) else st.sites[j]
  {
    if k != 0 { AllEmptiedSites(st, k - 1, enabled); }
  }

  lemma {:induction false} AllEmptiedBalances(st: State, k: nat, enabled: bool)
    requires Settled(st) && k <= |st.sites|
    ensures forall i :: 0 <= i < |st.sites| ==> Balanced(AllEmptied(st, k, enabled), i)
  {
    if k != 0 {
      AllEmptiedBalances(st, k - 1, enabled);
      EmptiedBalances(AllEmptied(st, k - 1, enabled), k - 1, enabled);
    }
  }

  lemma FlushedSettled(st: State, enabled: bool)
    requires Settled(st)
    ensures var e := AllEmptied(st, |st.sites|, enabled).(last := -1);
            Settled(e) && |e.sites| == |st.sites|
            && forall j :: 0 <= j < |st.sites| ==> e.sites[j] == st.sites[j].(suppressed := 0)
  {
    AllEmptiedSites(st, |st.sites|, enabled);
    AllEmptiedBalances(st, |st.sites|, enabled);
    var x := AllEmptied(st, |st.sites|, enabled);
    forall i | 0 <= i < |st.sites| ensures Balanced(x.(last := -1), i) {
      assert Balanced(x, i);
    }
  }

  // ---------------------------------------------------------------- the classes

  class DedupState {
    var suppressed: nat
    var initialized: bool
    /** Whether logger, level, file and line are stored. */
    var named: bool

    ghost function Now(): Site
      reads this
    {
      Site(suppressed, initialized, named)
    }

    constructor ()
      ensures Now() == Site(0, false, false)
    {
      suppressed, initialized, named := 0, false, false;
    }

    /** The first call stores the identity. */
    method Identify()
      modifies this`initialized, this`named
      ensures Now() == Site(old(suppressed), true, !old(initialized) || old(named))
    {
      if !initialized {
        initialized := true;
        named := true;
      }
    }

    /** `flush_summary`: the number in the line it writes, or 0 if it writes none. */
    method FlushSummary(enabled: bool) returns (reported: nat)
      modifies this`suppressed
      ensures suppressed == 0 && reported == if named && enabled then old(suppressed) else 0
    {
      var n := suppressed;
      suppressed := 0;
      if n == 0 || !named || !enabled { return 0; }
      return n;
    }
  }

  /** The registry and g_last_dedup, with the state of the step system that they are in. */
  class DedupRegistry {
    var states: seq<DedupState>
    var last: DedupState?
    ghost var st: State

    ghost predicate Shows()
      reads this, states
    {
      && WellFormed(st) && |st.sites| == |states|
      && (forall i, j :: 0 <= i < j < |states| ==> states[i] != states[j])
      && (if last == null then st.last == -1 else st.last != -1 && last == states[st.last])
      && forall i :: 0 <= i < |states| ==> st.sites[i] == states[i].Now()
    }

    ghost predicate Valid()
      reads this, states
    {
      Shows() && Settled(st)
    }

    constructor ()
      ensures Valid() && states == [] && last == null && Init(st)
    {
      states, last := [], null;
      st := State([], -1, [Idle], []);
    }

    /** `register_dedup`, called by the constructor of a site. */
    method Register(s: DedupState)
      requires Valid() && s !in states && s.Now() == Site(0, false, false)
      modifies this`states, this`st
      ensures Valid() && states == old(states) + [s]
      ensures st.sites == old(st.sites) + [Site(0, false, false)] && st.tallies == old(st.tallies) + [Tally(0, 0, 0, 0)]
    {
      assert forall i :: 0 <= i < |states| ==> Balanced(st, i);
      states := states + [s];
      st := st.(sites := st.sites + [Site(0, false, false)], tallies := st.tallies + [Tally(0, 0, 0, 0)]);
    }

    /** What `tick` of site i does to the sites. */
    method TickSites(i: nat, enabled: bool) returns (emit: bool, reported: nat)
      requires Shows() && i < |states|
      modifies this`last, states
      ensures last == states[i] && forall j :: 0 <= j < |states| ==> states[j].Now() == SiteAfter(st, i, j)
      ensures emit <==> st.last != i
      ensures reported == if emit && st.last != -1 && st.sites[st.last].named && enabled
                          then st.sites[st.last].suppressed else 0
    {
      var s := states[i];
      s.Identify();
      if last == s {
        s.suppressed := s.suppressed + 1;
        return false, 0;
      }
      var prev := last;
      last := s;
      reported := 0;
      if prev != null && prev != s {
        reported := prev.FlushSummary(enabled);
      }
      return true, reported;
    }

    /** `tick` of site i: the first of consecutive calls of one site passes, the others wait; a call of
        another site brings out the summary of the last one. */
    method Tick(i: nat, enabled: bool) returns (emit: bool, reported: nat)
      requires Valid() && i < |states|
      modifies this`last, this`st, states
      ensures Valid() && states == old(states)
      ensures exists moves :: IsCall(moves, Call(i), enabled) && Alone(old(st), moves, st)
      ensures st == Ticked(old(st), i, enabled)
      ensures emit <==> old(st.last) != i
      ensures last == states[i] && states[i].suppressed == old(states[i].suppressed) + (if emit then 0 else 1)
      ensures st.tallies[i].calls == old(st.tallies)[i].calls + 1
      ensures st.tallies[i].passed == old(st.tallies)[i].passed + (if emit then 1 else 0)
      ensures reported == if emit && old(st.last) != -1 && enabled then old(st.sites)[old(st.last)].suppressed else 0
    {
      ghost var moves := TickedIsRun(st, i, enabled);
      TickedSettled(st, i, enabled);
      TickedSites(st, i, enabled);
      LastIsNamed(st);
      hide Ticked, SiteAfter, IsCall, Alone, Settled;
      emit, reported := TickSites(i, enabled);
      st := Ticked(st, i, enabled);
    }

    method FlushSummaries(enabled: bool) returns (reported: seq<nat>)
      requires Shows()
      modifies states
      ensures |reported| == |states| && forall k :: 0 <= k < |states| ==>
        && states[k].Now() == st.sites[k].(suppressed := 0)
        && reported[k] == if st.sites[k].named && enabled then st.sites[k].suppressed else 0
    {
      reported := [];
      for i := 0 to |states|
        invariant |reported| == i
        invariant forall k :: 0 <= k < |states| ==>
          states[k].Now() == if k < i then st.sites[k].(suppressed := 0) else st.sites[k]
        invariant forall k :: 0 <= k < i ==>
          reported[k] == if st.sites[k].named && enabled then st.sites[k].suppressed else 0
      {
        var r := states[i].FlushSummary(enabled);
        reported := reported + [r];
      }
    }

    /** `flush_all`: nothing waits any longer, and the next call of any site passes. */
    method FlushAll(enabled: bool) returns (reported: seq<nat>)
      requires Valid()
      modifies this`last, this`st, states
      ensures Valid() && last == null && states == old(states)
      ensures exists moves :: IsCall(moves, CallFlush, enabled) && Alone(old(st), moves, st)
      ensures |reported| == |states| && forall i :: 0 <= i < |states| ==>
        st.sites[i].suppressed == 0 && reported[i] == if enabled then old(st.sites)[i].suppressed else 0
    {
      ghost var st0 := st;
      ghost var moves := FlushedIsRun(st, enabled);
      FlushedSettled(st, enabled);
      LastIsNamed(st);
      hide AllEmptied, IsCall, Alone, Settled;
      reported := FlushSummaries(enabled);
      last := null;
      st := AllEmptied(st0, |st0.sites|, enabled).(last := -1);
    }
  }
}
