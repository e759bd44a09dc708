/** The time gate of src/aggregate.cpp: a compare-and-swap loop over one word, run by any number
    of threads whose clock readings may be stale. */
module TimeGates {
  import opened Common

  /** Where a thread is: not in `tick`, or at the top of the loop, with its clock reading, its
      period and the value of the word it has seen. */
  datatype Pc = Idle | Looping(now: int, period: int, expected: int)

  /** One atomic step of a thread. */
  datatype Move = Enter(now: int, period: int)  // the clock is read, then next_ns
                | Refuse                        // now < expected
                | Swap                          // the compare-and-swap succeeds
                | Retry                         // it fails, perhaps spuriously

  /** What the step makes of the word and of the thread, if the thread can take it. */
  function Act(word: int, pc: Pc, m: Move): Option<(int, Pc)> {
    match (pc, m)
    case (Idle, Enter(now, period)) => Some((word, Looping(now, period, word)))
    case (Looping(now, _, expected), Refuse) => if now < expected then Some((word, Idle)) else None
    case (Looping(now, period, expected), Swap) =>
      if expected <= now && word == expected then Some((now + period, Idle)) else None
    case (Looping(now, period, expected), Retry) =>
      if expected <= now then Some((word, Looping(now, period, word))) else None
    case _ => None
  }

  /** A tick that succeeded. */
  datatype Pass = Pass(now: int, period: int)

  function Passes(pc: Pc, m: Move): seq<Pass> {
    if pc.Looping? && m == Swap then [Pass(pc.now, pc.period)] else []
  }

  /** next_ns; the threads; and the ticks that succeeded, in the order in which their swaps did. */
  datatype Gate = Gate(nextNs: int, threads: seq<Pc>, passed: seq<Pass>)

  predicate Init(g: Gate) {
    g.nextNs == 0 && g.passed == [] && forall t :: 0 <= t < |g.threads| ==> g.threads[t] == Idle
  }

  /** Thread t takes step m. */
  predicate Next(g: Gate, g': Gate, t: nat, m: Move) {
    && t < |g.threads|
    && var a := Act(g.nextNs, g.threads[t], m);
       && a.Some?
       && g' == Gate(a.value.0, g.threads[t := a.value.1], g.passed + Passes(g.threads[t], m))
  }

  /** Each success is at least the period of the one before later. */
  predicate Spaced(passed: seq<Pass>) {
    forall i :: 0 < i < |passed| ==> passed[i - 1].now + passed[i - 1].period <= passed[i].now
  }

  /** What the word has to be: the first clock reading at which a tick is allowed again. */
  function Allowed(passed: seq<Pass>): int {
    if passed == [] then 0 else passed[|passed| - 1].now + passed[|passed| - 1].period
  }

  predicate Inv(g: Gate) {
    Spaced(g.passed) && g.nextNs == Allowed(g.passed)
  }

  lemma StepKeeps(g: Gate, g': Gate, t: nat, m: Move)
    requires Inv(g) && Next(g, g', t, m)
    ensures Inv(g') && g.passed <= g'.passed
  {
  }

  /** A run: states and the moves between them. */
  ghost predicate IsRun(run: seq<Gate>, who: seq<nat>, moves: seq<Move>) {
    && run != [] && |who| == |moves| == |run| - 1 && Init(run[0])
    && forall i :: 0 <= i < |moves| ==> Next(run[i], run[i + 1], who[i], moves[i])
  }

  /** In every run over all interleavings, each tick that succeeds has a clock reading at least one
      period after that of the last one. */
  lemma {:induction false} EveryRun(run: seq<Gate>, who: seq<nat>, moves: seq<Move>, k: nat)
    requires IsRun(run, who, moves) && k < |run|
    ensures Inv(run[k]) && Spaced(run[k].passed)
  {
    if k != 0 {
      EveryRun(run, who, moves, k - 1);
      StepKeeps(run[k - 1], run[k], who[k - 1], moves[k - 1]);
    }
  }

  /** Any two of them, with as many periods between as there are successes. */
  lemma {:induction false} AnyTwo(passed: seq<Pass>, period: int, i: nat, j: nat)
    requires Spaced(passed) && i < j < |passed| && forall k :: 0 <= k < |passed| ==> period <= passed[k].period
    ensures passed[i].now + (j - i) * period <= passed[j].now
    decreases j
  {
    if i < j - 1 {
      AnyTwo(passed, period, i, j - 1);
      assert (j - i) * period == (j - 1 - i) * period + period;
    }
  }

  /** What a thread expects is never ahead of the word. */
  predicate NotAhead(g: Gate) {
    forall t :: 0 <= t < |g.threads| && g.threads[t].Looping? ==>
      g.threads[t].expected <= g.nextNs && 0 <= g.threads[t].period
  }

  lemma StepNotAhead(g: Gate, g': Gate, t: nat, m: Move)
    requires NotAhead(g) && Next(g, g', t, m) && (m.Enter? ==> 0 <= m.period)
    ensures NotAhead(g') && g.nextNs <= g'.nextNs
  {
  }

  /** With periods that are not negative, a tick is refused only if the word itself forbids it at
      that moment: within one period of the last success, or with a negative clock reading. */
  lemma {:induction false} RefusedWithReason(run: seq<Gate>, who: seq<nat>, moves: seq<Move>, k: nat)
    requires IsRun(run, who, moves) && k < |run|
    requires forall i :: 0 <= i < |moves| && moves[i].Enter? ==> 0 <= moves[i].period
    ensures NotAhead(run[k])
    ensures k < |moves| && moves[k] == Refuse ==>
      && who[k] < |run[k].threads| && run[k].threads[who[k]].Looping?
      && run[k].threads[who[k]].now < Allowed(run[k].passed)
  {
    if k != 0 {
      RefusedWithReason(run, who, moves, k - 1);
      StepNotAhead(run[k - 1], run[k], who[k - 1], moves[k - 1]);
    }
    EveryRun(run, who, moves, k);
    if k < |moves| { assert Next(run[k], run[k + 1], who[k], moves[k]); }
  }

  // ---------------------------------------------------------------- the loop of one thread

  /** The moves of thread me, in order. */
  function Own(who: seq<nat>, moves: seq<Move>, me: nat): seq<Move>
    requires |who| == |moves|
  {
    if who == [] then []
    else
      var k := |who| - 1;
      Own(who[..k], moves[..k], me) + if who[k] == me then [moves[k]] else []
  }

  /** All states so far, and the moves between them. */
  datatype History = History(run: seq<Gate>, who: seq<nat>, moves: seq<Move>)

  ghost predicate LeadsTo(h: History, g: Gate) {
    IsRun(h.run, h.who, h.moves) && h.run[|h.run| - 1] == g
  }

  /** h' goes on where h ended, and the moves of thread me since then are own. */
  ghost predicate Extends(h: History, h': History, own: seq<Move>, me: nat) {
    && |h.who| == |h.moves| <= |h'.who| == |h'.moves| && h.who <= h'.who && h.moves <= h'.moves
    && Own(h'.who[|h.who|..], h'.moves[|h.who|..], me) == own
  }

  lemma OwnNothing(h: History, g: Gate, me: nat)
    requires LeadsTo(h, g)
    ensures Extends(h, h, [], me)
  {
  }

  function Longer(h: History, g: Gate, t: nat, m: Move): History {
    History(h.run + [g], h.who + [t], h.moves + [m])
  }

  lemma OneMore(h: History, h': History, own: seq<Move>, me: nat, g: Gate, g': Gate, t: nat, m: Move)
    requires LeadsTo(h', g) && Next(g, g', t, m) && Extends(h, h', own, me)
    ensures LeadsTo(Longer(h', g', t, m), g')
    ensures Extends(h, Longer(h', g', t, m), if t == me then own + [m] else own, me)
  {
    LeadsOn(h', g, g', t, m);
    hide LeadsTo, Next;
    hide Own;
    FromOn(h'.who, t, |h.who|);
    FromOn(h'.moves, m, |h.who|);
    OwnOne(h'.who[|h.who|..], h'.moves[|h.who|..], t, m, me);
  }

  lemma FromOn<T>(s: seq<T>, x: T, n: nat)
    requires n <= |s|
    ensures (s + [x])[n..] == s[n..] + [x]
  {
  }

  lemma LeadsOn(h: History, g: Gate, g': Gate, t: nat, m: Move)
    requires LeadsTo(h, g) && Next(g, g', t, m)
    ensures LeadsTo(Longer(h, g', t, m), g')
    ensures |h.who| == |h.moves|
  {
    hide Next;
    var l := Longer(h, g', t, m);
    forall i | 0 <= i < |l.moves| ensures Next(l.run[i], l.run[i + 1], l.who[i], l.moves[i]) {
      if i < |h.moves| { assert Next(h.run[i], h.run[i + 1], h.who[i], h.moves[i]); }
    }
  }

  lemma OwnOne(w: seq<nat>, v: seq<Move>, t: nat, m: Move, me: nat)
    requires |w| == |v|
    ensures Own(w + [t], v + [m], me) == if t == me then Own(w, v, me) + [m] else Own(w, v, me)
  {
    assert (w + [t])[..|w|] == w && (v + [m])[..|w|] == v;
  }

  lemma {:induction false} OwnConcat(w: seq<nat>, v: seq<Move>, w': seq<nat>, v': seq<Move>, me: nat)
    requires |w| == |v| && |w'| == |v'|
    ensures Own(w + w', v + v', me) == Own(w, v, me) + Own(w', v', me)
    decreases |w'|
  {
    if w' == [] {
      assert w + w' == w && v + v' == v;
    } else {
      var k := |w'| - 1;
      OwnConcat(w, v, w'[..k], v'[..k], me);
      assert (w + w')[..|w| + k] == w + w'[..k] && (v + v')[..|w| + k] == v + v'[..k];
    }
  }

  lemma ExtendsTwice(h: History, h1: History, h2: History, own1: seq<Move>, own2: seq<Move>, me: nat)
    requires Extends(h, h1, own1, me) && Extends(h1, h2, own2, me)
    ensures Extends(h, h2, own1 + own2, me)
  {
    var n, n1 := |h.who|, |h1.who|;
    OwnConcat(h1.who[n..], h1.moves[n..], h2.who[n1..], h2.moves[n1..], me);
    assert h2.who[n..] == h1.who[n..] + h2.who[n1..] && h2.moves[n..] == h1.moves[n..] + h2.moves[n1..];
  }

  /** How one call of `tick` goes: the word is read, swaps fail, and one succeeds or the tick is
      refused. */
  predicate IsCall(own: seq<Move>, now: int, period: int, pass: bool) {
    && 2 <= |own| && own[0] == Enter(now, period)
    && (forall i :: 1 <= i < |own| - 1 ==> own[i] == Retry)
    && own[|own| - 1] == if pass then Swap else Refuse
  }

  /** What happens just before a compare-and-swap: other threads take steps, and the weak form may
      fail without cause. */
  datatype Event = Event(others: seq<(nat, Move)>, spurious: bool)

  /** `EveryTimeState`, where all its threads are, and the events that the coming swaps meet; after
      those, nothing happens. */
  class EveryTimeState {
    var nextNs: int
    var threads: seq<Pc>
    var events: seq<Event>

    /** The ticks that succeeded, and the run so far. */
    ghost var passed: seq<Pass>
    ghost var h: History

    ghost function Now(): Gate
      reads this
    {
      Gate(nextNs, threads, passed)
    }

    ghost predicate Valid()
      reads this
    {
      LeadsTo(h, Now())
    }

    constructor (n: nat, events: seq<Event>)
      ensures Valid() && |threads| == n && nextNs == 0 && this.events == events
    {
      nextNs, threads, this.events, passed := 0, seq(n, _ => Idle), events, [];
      h := History([Gate(0, seq(n, _ => Idle), [])], [], []);
    }

    /** The other threads take steps, as far as they can take them. */
    method Others(others: seq<(nat, Move)>, me: nat)
      requires Valid() && me < |threads|
      modifies this`nextNs, this`threads, this`passed, this`h
      ensures Valid() && |threads| == |old(threads)| && threads[me] == old(threads)[me]
      ensures Extends(old(h), h, [], me)
    {
      hide LeadsTo, Extends;
      OwnNothing(h, Now(), me);
      for i := 0 to |others|
        invariant Valid() && |threads| == |old(threads)| && threads[me] == old(threads)[me]
        invariant Extends(old(h), h, [], me)
      {
        var t, m := others[i].0, others[i].1;
        if t < |threads| && t != me && Act(nextNs, threads[t], m).Some? {
          ghost var was := Now();
          var a := Act(nextNs, threads[t], m).value;
          passed := passed + Passes(threads[t], m);
          nextNs, threads := a.0, threads[t := a.1];
          OneMore(old(h), h, [], me, was, Now(), t, m);
          h := Longer(h, Now(), t, m);
        }
      }
    }

    /** `compare_exchange_weak` of thread me; on failure seen is the value found. */
    method CompareExchange(me: nat, expected: int, desired: int) returns (ok: bool, seen: int)
      requires Valid() && me < |threads| && threads[me].Looping?
      requires threads[me].expected == expected <= threads[me].now && desired == threads[me].now + threads[me].period
      modifies this
      ensures Valid() && |threads| == |old(threads)|
      ensures events == if old(events) == [] then [] else old(events)[1..]
      ensures old(events) == [] && old(nextNs) == expected ==> ok
      ensures ok ==>
        && threads[me] == Idle && nextNs == desired
        && passed != [] && passed[|passed| - 1] == Pass(old(threads)[me].now, old(threads)[me].period)
      ensures !ok ==> seen == nextNs && threads[me] == old(threads)[me].(expected := seen)
      ensures Extends(old(h), h, [if ok then Swap else Retry], me)
    {
      hide LeadsTo, Extends;
      var pc, spurious := threads[me], false;
      OwnNothing(h, Now(), me);
      if events != [] {
        var e := events[0];
        events := events[1..];
        Others(e.others, me);
        spurious := e.spurious;
      }
      seen := nextNs;
      ok := seen == expected && !spurious;
      ghost var m, was := if ok then Swap else Retry, Now();
      if ok {
        nextNs := desired;
        passed, threads := passed + [Pass(pc.now, pc.period)], threads[me := Idle];
      } else {
        threads := threads[me := pc.(expected := seen)];
      }
      OneMore(old(h), h, [], me, was, Now(), me, m);
      assert [] + [m] == [m];
      h := Longer(h, Now(), me, m);
    }

    /** `tick` of thread me: whatever the other threads do, the loop ends, and it is one call of the
        step system, so that everything said about its runs holds of this one. */
    method Tick(me: nat, now: int, period: int) returns (pass: bool)
      requires Valid() && me < |threads| && threads[me] == Idle
      modifies this
      ensures Valid() && |threads| == |old(threads)| && threads[me] == Idle
      ensures exists own :: Extends(old(h), h, own, me) && IsCall(own, now, period, pass)
      ensures if pass then nextNs == now + period && passed != [] && passed[|passed| - 1] == Pass(now, period)
              else now < nextNs
    {
      hide LeadsTo, Extends;
      var expected := nextNs;
      OwnNothing(h, Now(), me);
      ghost var was := Now();
      threads := threads[me := Looping(now, period, expected)];
      OneMore(h, h, [], me, was, Now(), me, Enter(now, period));
      h := Longer(h, Now(), me, Enter(now, period));
      ghost var own := [Enter(now, period)];
      assert [] + own == own;
      while true
        invariant Valid() && |threads| == |old(threads)| && threads[me] == Looping(now, period, expected)
        invariant expected == nextNs && |events| <= |old(events)|
        invariant Extends(old(h), h, own, me)
        invariant own != [] && own[0] == Enter(now, period) && forall i :: 1 <= i < |own| ==> own[i] == Retry
        decreases |events|
      {
        if now < expected {
          was := Now();
          threads := threads[me := Idle];
          OneMore(old(h), h, own, me, was, Now(), me, Refuse);
          h := Longer(h, Now(), me, Refuse);
          assert IsCall(own + [Refuse], now, period, false);
          return false;
        }
        var desired := now + period;
        ghost var h0 := h;
        var ok: bool;
        ok, expected := CompareExchange(me, expected, desired);
        ghost var m := if ok then Swap else Retry;
        ExtendsTwice(old(h), h0, h, own, [m], me);
        own := own + [m];
        if ok {
          assert IsCall(own, now, period, true);
          return true;
        }
      }
    }
  }

  /** So its ticks are spaced, whatever the threads around it do. */
  lemma AllSpaced(gate: EveryTimeState)
    requires gate.Valid()
    ensures Spaced(gate.passed) && gate.nextNs == Allowed(gate.passed)
  {
    EveryRun(gate.h.run, gate.h.who, gate.h.moves, |gate.h.run| - 1);
  }
}
