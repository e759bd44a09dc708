/** The queue of examples/async_sink_skeleton.cpp: writers, one worker, flushes and destruction, in
    steps each of which holds the lock once or notifies once. */
module AsyncSinks {

  /** A log line and its level. */
  datatype Item = Item(level: nat, text: string)

  /** Where the worker is: awake and about to take the lock; asleep on cv_; writing an item it has
      taken, with what it will find in its flag; about to notify the flushes; or returned. */
  datatype Worker = Awake | Asleep | Delivering(item: Item, empty: bool) | Notifying | Done

  /** Where a call of flush is: about to look at the queue; asleep on cv_done_; or back. */
  datatype Flush = Looking | Sleeping | Back

  datatype Phase = Alive | Stopping | Drained

  /** owed is the number of threads that have changed the queue or the stop flag, have left the lock,
      and have not notified cv_ yet. accepted are all items that were ever put into the queue,
      delivered those given to the inner sink, in order. */
  datatype State = State(q: seq<Item>, stop: bool, dropped: nat, worker: Worker, owed: nat, flushes: seq<Flush>,
                         delivered: seq<Item>, phase: Phase, accepted: seq<Item>, writes: nat)

  function Start(): State {
    State([], false, 0, Awake, 0, [], [], Alive, [], 0)
  }

  datatype Move =
    | Write(item: Item) | Notify               // a writer, or the destructor when it notifies
    | Sleep | Take | Deliver | NotifyAll | Return  // the worker
    | Wake                                     // of the worker, without cause
    | CallFlush | Look(f: nat) | WakeFlush(f: nat)
    | Stop | Drain                             // the destructor

  predicate Enabled(s: State, m: Move) {
    match m
    case Write(_) => s.phase != Drained
    case Notify => s.owed > 0
    case Sleep => s.worker == Awake && s.q == [] && !s.stop
    case Take => s.worker == Awake && s.q != []
    case Deliver => s.worker.Delivering?
    case NotifyAll => s.worker == Notifying
    case Return => s.worker == Awake && s.q == [] && s.stop
    case Wake => s.worker == Asleep
    case CallFlush => s.phase != Drained
    case Look(f) => f < |s.flushes| && s.flushes[f] == Looking && s.phase != Drained
    case WakeFlush(f) => f < |s.flushes| && s.flushes[f] == Sleeping
    case Stop => s.phase == Alive
    case Drain => s.phase == Stopping && s.worker == Done
  }

  function Woken(w: Worker): Worker {
    if w == Asleep then Awake else w
  }

  function AllWoken(flushes: seq<Flush>): seq<Flush> {
    seq(|flushes|, f requires 0 <= f < |flushes| => if flushes[f] == Sleeping then Looking else flushes[f])
  }

  function Step(s: State, m: Move, cap: nat): State
    requires Enabled(s, m)
  {
    match m
    case Write(item) =>
      if |s.q| >= cap then s.(dropped := s.dropped + 1, writes := s.writes + 1)
      else s.(q := s.q + [item], owed := s.owed + 1, accepted := s.accepted + [item], writes := s.writes + 1)
    case Notify => s.(owed := s.owed - 1, worker := Woken(s.worker))
    case Sleep => s.(worker := Asleep)
    case Take => s.(worker := Delivering(s.q[0], |s.q| == 1), q := s.q[1..])
    case Deliver =>
      s.(worker := if s.worker.empty then Notifying else Awake, delivered := s.delivered + [s.worker.item])
    case NotifyAll => s.(worker := Awake, flushes := AllWoken(s.flushes))
    case Return => s.(worker := Done)
    case Wake => s.(worker := Awake)
    case CallFlush => s.(flushes := s.flushes + [Looking])
    case Look(f) => s.(flushes := s.flushes[f := if s.q == [] then Back else Sleeping])
    case WakeFlush(f) => s.(flushes := s.flushes[f := Looking])
    case Stop => s.(stop := true, owed := s.owed + 1, phase := Stopping)
    case Drain => s.(delivered := s.delivered + s.q, q := [], phase := Drained)
  }

  function InFlight(s: State): seq<Item> {
    if s.worker.Delivering? then [s.worker.item] else []
  }

  /** Nothing is lost, reordered or duplicated. */
  predicate InOrder(s: State) {
    s.delivered + InFlight(s) + s.q == s.accepted
  }

  predicate Counted(s: State, cap: nat) {
    && |s.q| <= cap && |s.accepted| + s.dropped == s.writes
    && (s.stop <==> s.phase != Alive) && (s.worker == Done ==> s.stop)
    && (s.phase == Drained ==> s.q == [] && s.worker == Done)
  }

  /** No wake-up is lost. A worker that sleeps although there is something to do is owed a notify. A
      flush that sleeps although the queue is empty is owed one by the worker, until the sink is
      destroyed. */
  predicate NoneLost(s: State) {
    && (s.worker == Asleep && (s.q != [] || s.stop) ==> s.owed > 0)
    && (s.q == [] && s.phase != Drained && Sleeping in s.flushes ==>
          s.worker == Notifying || (s.worker.Delivering? && s.worker.empty))
  }

  predicate Inv(s: State, cap: nat) {
    InOrder(s) && Counted(s, cap) && NoneLost(s)
  }

  lemma WriteInOrder(s: State, item: Item, cap: nat)
    requires InOrder(s) && Enabled(s, Write(item))
    ensures InOrder(Step(s, Write(item), cap))
  {
    assert s.delivered + InFlight(s) + (s.q + [item]) == (s.delivered + InFlight(s) + s.q) + [item];
  }

  lemma TakeInOrder(s: State, cap: nat)
    requires InOrder(s) && Enabled(s, Take)
    ensures InOrder(Step(s, Take, cap))
  {
    assert s.q == [s.q[0]] + s.q[1..];
    assert s.delivered + [] == s.delivered;
    assert s.delivered + [s.q[0]] + s.q[1..] == s.delivered + s.q;
  }

  lemma DeliverInOrder(s: State, cap: nat)
    requires InOrder(s) && Enabled(s, Deliver)
    ensures InOrder(Step(s, Deliver, cap))
  {
    assert s.delivered + [s.worker.item] + [] == s.delivered + InFlight(s);
  }

  lemma DrainInOrder(s: State, cap: nat)
    requires InOrder(s) && Enabled(s, Drain)
    ensures InOrder(Step(s, Drain, cap))
  {
    assert s.delivered + [] == s.delivered;
  }

  lemma StepInOrder(s: State, m: Move, cap: nat)
    requires InOrder(s) && Enabled(s, m)
    ensures InOrder(Step(s, m, cap))
  {
    match m
    case Write(item) => WriteInOrder(s, item, cap);
    case Take => TakeInOrder(s, cap);
    case Deliver => DeliverInOrder(s, cap);
    case Drain => DrainInOrder(s, cap);
    case _ =>
      var s' := Step(s, m, cap);
      assert s'.delivered == s.delivered && s'.q == s.q && s'.accepted == s.accepted && InFlight(s') == InFlight(s);
  }

  lemma StepCounted(s: State, m: Move, cap: nat)
    requires Counted(s, cap) && Enabled(s, m)
    ensures Counted(Step(s, m, cap), cap)
  {
  }

  lemma StepNoneLost(s: State, m: Move, cap: nat)
    requires Counted(s, cap) && NoneLost(s) && Enabled(s, m)
    ensures NoneLost(Step(s, m, cap))
  {
  }

  lemma StepGrows(s: State, m: Move, cap: nat)
    requires Enabled(s, m)
    ensures s.accepted <= Step(s, m, cap).accepted && s.delivered <= Step(s, m, cap).delivered
  {
  }

  lemma StepKeeps(s: State, m: Move, cap: nat)
    requires Inv(s, cap) && Enabled(s, m)
    ensures Inv(Step(s, m, cap), cap)
  {
    StepInOrder(s, m, cap);
    StepCounted(s, m, cap);
    StepNoneLost(s, m, cap);
    hide InOrder, Counted, NoneLost, Step, Enabled;
  }

  /** A run: the states before and after each move. */
  ghost predicate IsRun(run: seq<State>, moves: seq<Move>, cap: nat) {
    && |run| == |moves| + 1 && run[0] == Start()
    && forall i :: 0 <= i < |moves| ==> Enabled(run[i], moves[i]) && run[i + 1] == Step(run[i], moves[i], cap)
  }

  /** Over all interleavings of writers, worker, flushes and destructor. */
  lemma {:induction false} EveryRun(run: seq<State>, moves: seq<Move>, cap: nat, k: nat)
    requires IsRun(run, moves, cap) && k < |run|
    ensures Inv(run[k], cap)
  {
    if k != 0 {
      EveryRun(run, moves, cap, k - 1);
      StepKeeps(run[k - 1], moves[k - 1], cap);
    }
  }

  lemma {:induction false} OnlyGrows(run: seq<State>, moves: seq<Move>, cap: nat, i: nat, j: nat)
    requires IsRun(run, moves, cap) && i <= j < |run|
    ensures run[i].accepted <= run[j].accepted && run[i].delivered <= run[j].delivered
    decreases j
  {
    if i < j {
      OnlyGrows(run, moves, cap, i, j - 1);
      StepGrows(run[j - 1], moves[j - 1], cap);
      hide Step, Enabled;
    }
  }

  /** A call of flush that was under way at i comes back with move j. Of what had been accepted by
      then at most the one item in the worker's hands is not delivered. */
  lemma FlushLeavesAtMostOne(run: seq<State>, moves: seq<Move>, cap: nat, i: nat, j: nat, f: nat)
    requires IsRun(run, moves, cap) && i <= j < |moves| && f < |run[j].flushes|
    requires moves[j] == Look(f) && run[j + 1].flushes[f] == Back
    ensures run[j].accepted == run[j].delivered + InFlight(run[j]) && |InFlight(run[j])| <= 1
    ensures run[i].accepted <= run[j].delivered || run[i].accepted == run[j].delivered + InFlight(run[j])
  {
    assert run[j + 1] == Step(run[j], moves[j], cap);
    EveryRun(run, moves, cap, j);
    OnlyGrows(run, moves, cap, i, j);
    var d, a := run[j].delivered, run[j].accepted;
    assert run[j].q == [];
    assert a == d + InFlight(run[j]);
    if |run[i].accepted| <= |d| {
      assert run[i].accepted == a[..|run[i].accepted|] == d[..|run[i].accepted|];
    } else {
      assert |run[i].accepted| == |a|;
    }
  }

  /** It can leave that one: the worker takes the only item, and flush finds the queue empty. */
  lemma FlushCanLeaveOne(item: Item, cap: nat) returns (run: seq<State>, moves: seq<Move>)
    requires 1 <= cap
    ensures IsRun(run, moves, cap) && var e := run[|run| - 1];
            e.flushes == [Back] && e.accepted == [item] && e.delivered == []
  {
    moves := [Write(item), Take, CallFlush, Look(0)];
    var s0 := Start();
    var s1 := Step(s0, moves[0], cap);
    var s2 := Step(s1, moves[1], cap);
    var s3 := Step(s2, moves[2], cap);
    run := [s0, s1, s2, s3, Step(s3, moves[3], cap)];
  }

  /** After destruction everything accepted has been delivered, in order. */
  lemma DestroyedDelivered(run: seq<State>, moves: seq<Move>, cap: nat, k: nat)
    requires IsRun(run, moves, cap) && k < |run| && run[k].phase == Drained
    ensures run[k].delivered == run[k].accepted && run[k].q == []
  {
    EveryRun(run, moves, cap, k);
  }

  /** The steps that need no one to call anything: those of the worker, but for going to sleep, and
      the notifies that are owed. */
  predicate Pending(m: Move) {
    m == Notify || m == Take || m == Deliver || m == NotifyAll || m == Return
  }

  /** How many of them there can be before one writes, stops or flushes again. */
  function Remaining(s: State): nat {
    s.owed + 3 * |s.q| + match s.worker
                         case Done => 0
                         case Awake => 1
                         case Asleep => 1
                         case Notifying => 2
                         case Delivering(_, _) => 3
  }

  lemma PendingLowers(s: State, m: Move, cap: nat)
    requires Enabled(s, m) && Pending(m)
    ensures Remaining(Step(s, m, cap)) < Remaining(s)
  {
  }

  /** After stop the worker is never stuck: it is not asleep for good, and every such step brings its
      return closer. */
  lemma WorkerReturns(s: State, cap: nat) returns (m: Move)
    requires Inv(s, cap) && s.stop && s.worker != Done
    ensures Pending(m) && Enabled(s, m) && Remaining(Step(s, m, cap)) < Remaining(s)
  {
    m := match s.worker
         case Delivering(_, _) => Deliver
         case Notifying => NotifyAll
         case Asleep => Notify
         case _ => if s.q != [] then Take else Return;
    PendingLowers(s, m, cap);
  }

  /** Nor does a flush sleep for good while the sink lives: some pending step can be taken as long as
      one sleeps, each of them lowers the measure, so after finitely many none does. */
  lemma FlushWakes(s: State, cap: nat) returns (m: Move)
    requires Inv(s, cap) && s.phase == Alive && Sleeping in s.flushes
    ensures Pending(m) && Enabled(s, m) && Remaining(Step(s, m, cap)) < Remaining(s)
  {
    m := match s.worker
         case Delivering(_, _) => Deliver
         case Notifying => NotifyAll
         case Asleep => Notify
         case _ => Take;
    PendingLowers(s, m, cap);
  }

  // ---------------------------------------------------------------- the class

  class AsyncSink {
    const cap: nat
    var q: seq<Item>
    var stop: bool
    var dropped: nat
    /** The inner sink: what it has been given. */
    var inner: seq<Item>

    /** The worker thread, with its item and flag. */
    var worker: Worker

    ghost var owed: nat
    ghost var flushes: seq<Flush>
    ghost var phase: Phase
    ghost var accepted: seq<Item>
    ghost var writes: nat

    ghost function Now(): State
      reads this
    {
      State(q, stop, dropped, worker, owed, flushes, inner, phase, accepted, writes)
    }

    constructor (cap: nat)
      ensures Now() == Start() && this.cap == cap
    {
      this.cap := cap;
      q, stop, dropped, inner := [], false, 0, [];
      worker, owed, flushes, phase, accepted, writes := Awake, 0, [], Alive, [], 0;
    }

    /** `write`: the critical section, and the notify if there was room. */
    method Enqueue(item: Item)
      requires phase != Drained
      modifies this
      ensures var s := Step(old(Now()), Write(item), cap);
              Now() == if |old(q)| >= cap then s else Step(s, Notify, cap)
      ensures |old(q)| < cap ==>
        q == old(q) + [item] && accepted == old(accepted) + [item] && dropped == old(dropped) && worker != Asleep
      ensures |old(q)| >= cap ==> q == old(q) && accepted == old(accepted) && dropped == old(dropped) + 1
    {
      writes := writes + 1;
      if |q| >= cap {
        dropped := dropped + 1;
        return;
      }
      q := q + [item];
      accepted := accepted + [item];
      worker := Woken(worker);
    }

    /** One look of `flush` at the queue, under the lock. */
    method LookEmpty(ghost f: nat) returns (done: bool)
      requires Enabled(Now(), Look(f))
      modifies this`flushes
      ensures Now() == Step(old(Now()), Look(f), cap) && (done <==> q == [])
    {
      done := q == [];
      flushes := flushes[f := if done then Back else Sleeping];
    }

    /** One turn of the worker's loop up to the unlock. */
    method TakeItem() returns (it: Item, empty: bool)
      requires worker == Awake && q != []
      modifies this
      ensures Now() == Step(old(Now()), Take, cap) && worker == Delivering(it, empty)
    {
      it := q[0];
      q := q[1..];
      empty := q == [];
      worker := Delivering(it, empty);
    }

    /** The rest of the turn, outside the lock. */
    method DeliverItem(it: Item, empty: bool)
      requires worker == Delivering(it, empty)
      modifies this
      ensures var s := Step(old(Now()), Deliver, cap);
              Now() == if empty then Step(s, NotifyAll, cap) else s
    {
      inner := inner + [it];
      worker := Awake;
      if empty { flushes := AllWoken(flushes); }
    }

    /** `run` after stop, from wherever the worker is but asleep: it empties the queue and returns. */
    method RunToEnd()
      requires Inv(Now(), cap) && stop && worker != Asleep && worker != Done
      modifies this
      ensures Inv(Now(), cap) && worker == Done && q == [] && stop && phase == old(phase) && accepted == old(accepted)
    {
      hide Inv;
      match worker {
        case Delivering(it, empty) =>
          TurnKeeps(Now(), cap);
          DeliverItem(it, empty);
        case Notifying =>
          StepKeeps(Now(), NotifyAll, cap);
          worker, flushes := Awake, AllWoken(flushes);
        case _ =>
      }
      while true
        invariant Inv(Now(), cap) && stop && worker == Awake && phase == old(phase) && accepted == old(accepted)
        decreases |q|
      {
        if q == [] && stop { break; }
        StepKeeps(Now(), Take, cap);
        var it, empty := TakeItem();
        TurnKeeps(Now(), cap);
        DeliverItem(it, empty);
      }
      StepKeeps(Now(), Return, cap);
      worker := Done;
    }

    /** `drain` */
    method DrainQueue()
      requires phase == Stopping && worker == Done
      modifies this
      ensures Now() == Step(old(Now()), Drain, cap)
    {
      ghost var was := inner;
      for i := 0 to |q|
        invariant Now() == old(Now()).(delivered := inner)
        invariant inner == was + q[..i]
      {
        inner := inner + [q[i]];
      }
      assert q[..|q|] == q;
      q := [];
      phase := Drained;
    }

    /** The destructor, whatever the worker is doing and whoever still owes it a notify. */
    method Destroy()
      requires Inv(Now(), cap) && phase == Alive
      modifies this
      ensures inner == accepted == old(accepted) && q == [] && phase == Drained
    {
      hide Inv, Step;
      StopKeeps(Now(), cap);
      stop := true;
      phase := Stopping;
      worker := Woken(worker);
      RunToEnd();
      DrainGives(Now(), cap);
      DrainQueue();
    }
  }

  /** A whole turn outside the lock. */
  lemma TurnKeeps(s: State, cap: nat)
    requires Inv(s, cap) && s.worker.Delivering?
    ensures var s' := Step(s, Deliver, cap); Inv(if s.worker.empty then Step(s', NotifyAll, cap) else s', cap)
  {
    StepKeeps(s, Deliver, cap);
    if s.worker.empty { StepKeeps(Step(s, Deliver, cap), NotifyAll, cap); }
  }

  /** The destructor's critical section and its notify. */
  lemma StopKeeps(s: State, cap: nat)
    requires Inv(s, cap) && s.phase == Alive
    ensures s.worker != Done && Inv(s.(stop := true, phase := Stopping, worker := Woken(s.worker)), cap)
  {
    StepKeeps(s, Stop, cap);
    StepKeeps(Step(s, Stop, cap), Notify, cap);
  }

  lemma DrainGives(s: State, cap: nat)
    requires Inv(s, cap) && Enabled(s, Drain)
    ensures var s' := Step(s, Drain, cap);
            s'.delivered == s'.accepted == s.accepted && s'.q == [] && s'.phase == Drained
  {
    StepKeeps(s, Drain, cap);
  }
}
