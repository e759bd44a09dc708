/** The token bucket of src/aggregate.cpp, with tokens as reals. */
module Bursts {

  datatype Bucket = Bucket(tokens: real, lastNs: int, initialized: bool)

  const BILLION := 1000000000.0

  /** What refilling at `refill` tokens per second adds in ns nanoseconds. */
  function Refill(ns: int, refill: real): real {
    (ns as real) / BILLION * refill
  }

  function Start(): Bucket {
    Bucket(0.0, 0, false)
  }

  /** The bucket just before a token is asked for at time now. */
  function Topped(b: Bucket, now: int, burst: nat, refill: real): Bucket {
    if !b.initialized then Bucket(burst as real, now, true)
    else if now - b.lastNs > 0 then
      var t := b.tokens + Refill(now - b.lastNs, refill);
      Bucket(if t > burst as real then burst as real else t, now, true)
    else b
  }

  function Passes(b: Bucket, now: int, burst: nat, refill: real): bool {
    Topped(b, now, burst, refill).tokens >= 1.0
  }

  function After(b: Bucket, now: int, burst: nat, refill: real): Bucket {
    var t := Topped(b, now, burst, refill);
    if t.tokens >= 1.0 then t.(tokens := t.tokens - 1.0) else t
  }

  /** The bucket is never overdrawn and never overfull. */
  predicate Sound(b: Bucket, burst: nat) {
    0.0 <= b.tokens && (b.initialized ==> b.tokens <= burst as real)
  }

  /** `BurstState`; now is read before the lock is taken, so it may be older than lastNs. */
  class BurstState {
    var tokens: real
    var lastNs: int
    var initialized: bool

    function State(): Bucket
      reads this
    {
      Bucket(tokens, lastNs, initialized)
    }

    constructor ()
      ensures State() == Start()
    {
      tokens, lastNs, initialized := 0.0, 0, false;
    }

    method Tick(now: int, burst: nat, refill: real) returns (pass: bool)
      modifies this
      ensures pass == Passes(old(State()), now, burst, refill) && State() == After(old(State()), now, burst, refill)
    {
      if !initialized {
        tokens := burst as real;
        lastNs := now;
        initialized := true;
      } else {
        var elapsed := ((now - lastNs) as real) / 1000000000.0;
        if elapsed > 0.0 {
          tokens := tokens + elapsed * refill;
          if tokens > burst as real {
            tokens := burst as real;
          }
          lastNs := now;
        }
      }
      if tokens >= 1.0 {
        tokens := tokens - 1.0;
        return true;
      }
      return false;
    }
  }

  // ---------------------------------------------------------------- runs

  function RunFrom(b: Bucket, nows: seq<int>, burst: nat, refill: real): Bucket {
    if nows == [] then b
    else After(RunFrom(b, nows[..|nows| - 1], burst, refill), nows[|nows| - 1], burst, refill)
  }

  /** How many of the calls pass. */
  function PassCount(b: Bucket, nows: seq<int>, burst: nat, refill: real): nat {
    if nows == [] then 0
    else
      var front := nows[..|nows| - 1];
      PassCount(b, front, burst, refill)
      + (if Passes(RunFrom(b, front, burst, refill), nows[|nows| - 1], burst, refill) then 1 else 0)
  }

  lemma RefillAdds(a: int, b: int, refill: real)
    ensures Refill(a, refill) + Refill(b, refill) == Refill(a + b, refill)
    ensures 0 <= a && 0.0 <= refill ==> 0.0 <= Refill(a, refill)
  {
    var x, y := (a as real) / BILLION, (b as real) / BILLION;
    assert ((a + b) as real) / BILLION == x + y;
    assert (x + y) * refill == x * refill + y * refill;
  }

  /** One call, of a bucket in use: what is passed on is paid for by the refill. */
  lemma OneCall(b: Bucket, now: int, burst: nat, refill: real)
    requires Sound(b, burst) && 0.0 <= refill
    ensures var a, p := After(b, now, burst, refill), if Passes(b, now, burst, refill) then 1.0 else 0.0;
            && Sound(a, burst) && a.initialized
            && (b.initialized ==>
                  && b.lastNs <= a.lastNs
                  && a.tokens + p <= b.tokens + Refill(a.lastNs - b.lastNs, refill))
            && (!b.initialized ==> a.lastNs == now && a.tokens + p == burst as real)
  {
    RefillAdds(now - b.lastNs, 0, refill);
    assert Refill(0, refill) == 0.0;
    hide Refill;
  }

  /** The books of a whole window of calls. */
  lemma {:induction false} WindowBooks(b: Bucket, nows: seq<int>, burst: nat, refill: real)
    requires Sound(b, burst) && b.initialized && 0.0 <= refill
    ensures var a := RunFrom(b, nows, burst, refill);
            && Sound(a, burst) && a.initialized && b.lastNs <= a.lastNs
            && a.tokens + PassCount(b, nows, burst, refill) as real <= b.tokens + Refill(a.lastNs - b.lastNs, refill)
    decreases |nows|
  {
    hide After, Passes, Refill;
    if nows == [] {
      NoRefill(refill);
    } else {
      var front := nows[..|nows| - 1];
      WindowBooks(b, front, burst, refill);
      var m, a := RunFrom(b, front, burst, refill), RunFrom(b, nows, burst, refill);
      OneCall(m, nows[|nows| - 1], burst, refill);
      RefillAdds(m.lastNs - b.lastNs, a.lastNs - m.lastNs, refill);
    }
  }

  lemma NoRefill(refill: real)
    ensures Refill(0, refill) == 0.0
  {
  }

  /** In every run, and for every window of consecutive calls in it: at most burst plus what is
      refilled between the two lastNs passes. */
  lemma WindowBound(before: seq<int>, window: seq<int>, burst: nat, refill: real)
    requires 0.0 <= refill && before != []
    ensures var b := RunFrom(Start(), before, burst, refill); var a := RunFrom(b, window, burst, refill);
            && 0.0 <= a.tokens <= burst as real && b.lastNs <= a.lastNs
            && PassCount(b, window, burst, refill) as real <= burst as real + Refill(a.lastNs - b.lastNs, refill)
  {
    AlwaysSound(before, burst, refill);
    WindowBooks(RunFrom(Start(), before, burst, refill), window, burst, refill);
  }

  /** The first window too, counted from its first call. */
  lemma FirstWindowBound(first: int, window: seq<int>, burst: nat, refill: real)
    requires 0.0 <= refill
    ensures var b := After(Start(), first, burst, refill); var a := RunFrom(b, window, burst, refill);
            var p := PassCount(b, window, burst, refill) + (if Passes(Start(), first, burst, refill) then 1 else 0);
            p as real <= burst as real + Refill(a.lastNs - first, refill)
  {
    OneCall(Start(), first, burst, refill);
    WindowBooks(After(Start(), first, burst, refill), window, burst, refill);
    hide After, Passes, Refill;
  }

  lemma {:induction false} AlwaysSound(nows: seq<int>, burst: nat, refill: real)
    requires 0.0 <= refill
    ensures var b := RunFrom(Start(), nows, burst, refill); Sound(b, burst) && (nows != [] ==> b.initialized)
    decreases |nows|
  {
    if nows != [] {
      AlwaysSound(nows[..|nows| - 1], burst, refill);
      OneCall(RunFrom(Start(), nows[..|nows| - 1], burst, refill), nows[|nows| - 1], burst, refill);
    }
  }

  // ---------------------------------------------------------------- nothing is held back

  /** When exactly a call passes: what is left and what has been refilled since make a token. */
  lemma PassesIff(b: Bucket, now: int, burst: nat, refill: real)
    requires Sound(b, burst) && 0.0 <= refill
    ensures Passes(b, now, burst, refill) <==>
      1 <= burst && (b.initialized ==> 1.0 <= b.tokens + Refill(if b.lastNs < now then now - b.lastNs else 0, refill))
  {
    NoRefill(refill);
    hide Refill;
  }

  lemma {:induction false} LastNsIsLatest(b: Bucket, nows: seq<int>, burst: nat, refill: real)
    requires b.initialized
    ensures var a := RunFrom(b, nows, burst, refill);
            && a.initialized && b.lastNs <= a.lastNs && (a.lastNs == b.lastNs || a.lastNs in nows)
            && forall i :: 0 <= i < |nows| ==> nows[i] <= a.lastNs
    decreases |nows|
  {
    if nows != [] {
      var front := nows[..|nows| - 1];
      LastNsIsLatest(b, front, burst, refill);
      var m := RunFrom(b, front, burst, refill);
      assert After(m, nows[|nows| - 1], burst, refill).lastNs
          == if m.lastNs < nows[|nows| - 1] then nows[|nows| - 1] else m.lastNs;
    }
  }

  /** One call of a bucket that does not run over. */
  lemma OneCallExact(b: Bucket, now: int, burst: nat, refill: real)
    requires b.initialized
    ensures var a, p := After(b, now, burst, refill), if Passes(b, now, burst, refill) then 1.0 else 0.0;
            b.tokens + Refill(a.lastNs - b.lastNs, refill) <= burst as real ==>
              a.tokens + p == b.tokens + Refill(a.lastNs - b.lastNs, refill)
  {
    NoRefill(refill);
    hide Refill;
  }

  /** While the bucket does not run over, nothing is lost: every token that was there or has been
      refilled is passed on or still there. */
  lemma {:induction false} NothingLost(b: Bucket, nows: seq<int>, burst: nat, refill: real)
    requires Sound(b, burst) && b.initialized && 0.0 <= refill
    requires b.tokens + Refill(RunFrom(b, nows, burst, refill).lastNs - b.lastNs, refill) <= burst as real
    ensures var a := RunFrom(b, nows, burst, refill);
            a.tokens + PassCount(b, nows, burst, refill) as real == b.tokens + Refill(a.lastNs - b.lastNs, refill)
    decreases |nows|
  {
    if nows == [] {
      NoRefill(refill);
    } else {
      var front := nows[..|nows| - 1];
      var m, a := RunFrom(b, front, burst, refill), RunFrom(b, nows, burst, refill);
      WindowBooks(b, front, burst, refill);
      OneCall(m, nows[|nows| - 1], burst, refill);
      RefillAdds(m.lastNs - b.lastNs, a.lastNs - m.lastNs, refill);
      OneCallExact(m, nows[|nows| - 1], burst, refill);
      hide After, Passes, Refill;
      NothingLost(b, front, burst, refill);
    }
  }

  /** What is left after each call. */
  lemma TokensLeft(b: Bucket, now: int, burst: nat, refill: real)
    requires Sound(b, burst) && 0.0 <= refill
    requires b.initialized ==> 1.0 <= b.tokens
    requires 1 <= burst
    ensures Passes(b, now, burst, refill)
    ensures b.initialized ==> b.tokens - 1.0 <= After(b, now, burst, refill).tokens
  {
    RefillAdds(now - b.lastNs, 0, refill);
    hide Refill;
  }

  /** A full bucket: the next burst calls all pass, however close together they come. A bucket is full
      when it is first used, and after a pause that is long enough to fill it. */
  lemma {:induction false} FullBurstPasses(b: Bucket, nows: seq<int>, burst: nat, refill: real)
    requires Sound(b, burst) && 0.0 <= refill && 1 <= |nows| <= burst
    requires b.initialized ==> b.lastNs < nows[0] && burst as real <= b.tokens + Refill(nows[0] - b.lastNs, refill)
    ensures PassCount(b, nows, burst, refill) == |nows|
    ensures var a := RunFrom(b, nows, burst, refill);
            Sound(a, burst) && a.initialized && (burst - |nows|) as real <= a.tokens
    decreases |nows|
  {
    var front, last := nows[..|nows| - 1], nows[|nows| - 1];
    var m := RunFrom(b, front, burst, refill);
    if |nows| == 1 {
      assert front == [] && PassCount(b, [], burst, refill) == 0;
      OneCall(b, last, burst, refill);
      hide Refill;
    } else {
      FullBurstPasses(b, front, burst, refill);
      TokensLeft(m, last, burst, refill);
      OneCall(m, last, burst, refill);
      hide After, Passes, Refill;
    }
  }

  /** One token a second, and room for one: calls at 0 s, 0.5 s, 2 s and 2.5 s. */
  method OneASecond() returns (a: bool, b: bool, c: bool, d: bool)
    ensures a && !b && c && !d
  {
    var state := new BurstState();
    a := state.Tick(0, 1, 1.0);
    b := state.Tick(5_0000_0000, 1, 1.0);
    assert state.State() == Bucket(0.5, 5_0000_0000, true);
    c := state.Tick(20_0000_0000, 1, 1.0);
    assert state.State() == Bucket(0.0, 20_0000_0000, true);
    d := state.Tick(25_0000_0000, 1, 1.0);
  }
}
