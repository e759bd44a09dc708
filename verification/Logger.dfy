/** Loggers, their sinks and their ties: src/logger.cpp. */
module Loggers {
  import opened TieGraphs

  /** What a sink has been given: the entries, and how often it was flushed. */
  class Sink {
    var log: seq<string>
    var flushes: nat

    method Write(e: string)
      modifies this
      ensures log == old(log) + [e] && flushes == old(flushes)
    {
      log := log + [e];
    }

    method Flush()
      modifies this
      ensures log == old(log) && flushes == old(flushes) + 1
    {
      flushes := flushes + 1;
    }
  }

  /** `tl_emit_visited` of one thread. */
  class EmitThread {
    var visited: set<Logger>
  }

  ghost function Copies(e: string, n: nat): seq<string> {
    seq(n, _ => e)
  }

  /** How many of the paths end at a logger that owns s. */
  ghost function Hits(w: seq<seq<Logger>>, own: map<Logger, seq<Sink>>, s: Sink): nat {
    if w == [] then 0
    else
      var q := w[|w| - 1];
      Hits(w[..|w| - 1], own, s) + (if q != [] && q[|q| - 1] in own && s in own[q[|q| - 1]] then 1 else 0)
  }

  lemma {:induction false} HitsConcat(a: seq<seq<Logger>>, b: seq<seq<Logger>>, own: map<Logger, seq<Sink>>, s: Sink)
    ensures Hits(a + b, own, s) == Hits(a, own, s) + Hits(b, own, s)
  {
    if b == [] {
      assert a + b == a;
    } else {
      HitsConcat(a, b[..|b| - 1], own, s);
      assert (a + b)[..|a + b| - 1] == a + b[..|b| - 1];
    }
  }

  lemma HitsOne(q: seq<Logger>, own: map<Logger, seq<Sink>>, s: Sink)
    ensures Hits([q], own, s) == if q != [] && q[|q| - 1] in own && s in own[q[|q| - 1]] then 1 else 0
  {
    assert [q][..0] == [];
  }

  /** The same for a list of loggers. */
  ghost function Visits(w: seq<Logger>, own: map<Logger, seq<Sink>>, s: Sink): nat {
    if w == [] then 0
    else Visits(w[..|w| - 1], own, s) + (if w[|w| - 1] in own && s in own[w[|w| - 1]] then 1 else 0)
  }

  lemma {:induction false} VisitsConcat(a: seq<Logger>, b: seq<Logger>, own: map<Logger, seq<Sink>>, s: Sink)
    ensures Visits(a + b, own, s) == Visits(a, own, s) + Visits(b, own, s)
  {
    if b == [] {
      assert a + b == a;
    } else {
      VisitsConcat(a, b[..|b| - 1], own, s);
      assert (a + b)[..|a + b| - 1] == a + b[..|b| - 1];
    }
  }

  lemma VisitsOne(l: Logger, own: map<Logger, seq<Sink>>, s: Sink)
    ensures Visits([l], own, s) == if l in own && s in own[l] then 1 else 0
  {
    assert [l][..0] == [];
  }

  /** The loggers `all` are tied among themselves as g says, own their sinks as own says, and
      those sinks are in ss. */
  ghost predicate Network(all: set<Logger>, g: Graph<Logger>, own: map<Logger, seq<Sink>>, ss: set<Sink>)
    reads all
  {
    && g.Keys == all && own.Keys == all && Closed(g)
    && forall l <- all :: l.Valid() && l.ties == g[l] && l.sinks == own[l] && forall s <- l.sinks :: s in ss
  }

  /** What all the sinks have been given, and how often each was flushed. */
  ghost function Logs(ss: set<Sink>): map<Sink, seq<string>>
    reads ss
  {
    map s | s in ss :: s.log
  }

  ghost function Counts(ss: set<Sink>): map<Sink, nat>
    reads ss
  {
    map s | s in ss :: s.flushes
  }

  /** The logs after e has gone along the paths w. */
  ghost function Written(logs: map<Sink, seq<string>>, e: string, w: seq<seq<Logger>>, own: map<Logger,
                         seq<Sink>>): map<Sink, seq<string>> {
    map s | s in logs :: logs[s] + Copies(e, Hits(w, own, s))
  }

  /** The counts after the loggers w have been flushed. */
  ghost function Flushed(counts: map<Sink, nat>, w: seq<Logger>, own: map<Logger, seq<Sink>>): map<Sink, nat> {
    map s | s in counts :: counts[s] + Visits(w, own, s)
  }

  lemma WrittenNone(logs: map<Sink, seq<string>>, e: string, own: map<Logger, seq<Sink>>)
    ensures Written(logs, e, [], own) == logs
  {
    forall s | s in logs ensures logs[s] + Copies(e, Hits([], own, s)) == logs[s] { }
  }

  lemma WrittenTwice(logs: map<Sink, seq<string>>, e: string, a: seq<seq<Logger>>, b: seq<seq<Logger>>,
                     own: map<Logger, seq<Sink>>)
    ensures Written(Written(logs, e, a, own), e, b, own) == Written(logs, e, a + b, own)
  {
    forall s | s in logs
      ensures logs[s] + Copies(e, Hits(a, own, s)) + Copies(e, Hits(b, own, s))
           == logs[s] + Copies(e, Hits(a + b, own, s))
    {
      HitsConcat(a, b, own, s);
    }
  }

  lemma FlushedTwice(counts: map<Sink, nat>, a: seq<Logger>, b: seq<Logger>, own: map<Logger, seq<Sink>>)
    ensures Flushed(Flushed(counts, a, own), b, own) == Flushed(counts, a + b, own)
  {
    forall s | s in counts ensures Visits(a, own, s) + Visits(b, own, s) == Visits(a + b, own, s) {
      VisitsConcat(a, b, own, s);
    }
  }

  /** `for (auto& s : sinks_) s->write(...)` */
  method WriteAll(sinks: seq<Sink>, e: string)
    requires NoDuplicates(sinks)
    modifies sinks
    ensures forall s <- sinks :: s.log == old(s.log) + [e] && s.flushes == old(s.flushes)
  {
    for i := 0 to |sinks|
      invariant forall k :: 0 <= k < i ==> sinks[k].log == old(sinks[k].log) + [e]
      invariant forall k :: i <= k < |sinks| ==> sinks[k].log == old(sinks[k].log)
      invariant forall k :: 0 <= k < |sinks| ==> sinks[k].flushes == old(sinks[k].flushes)
    {
      sinks[i].Write(e);
    }
  }

  method FlushAll(sinks: seq<Sink>)
    requires NoDuplicates(sinks)
    modifies sinks
    ensures forall s <- sinks :: s.flushes == old(s.flushes) + 1 && s.log == old(s.log)
  {
    for i := 0 to |sinks|
      invariant forall k :: 0 <= k < i ==>
        sinks[k].flushes == old(sinks[k].flushes) + 1 && sinks[k].log == old(sinks[k].log)
      invariant forall k :: i <= k < |sinks| ==>
        sinks[k].flushes == old(sinks[k].flushes) && sinks[k].log == old(sinks[k].log)
    {
      sinks[i].Flush();
    }
  }

  class Logger {
    var sinks: seq<Sink>
    var ties: seq<Logger>
    var tieCount: nat

    ghost predicate Valid()
      reads this
    {
      tieCount == |ties| && NoDuplicates(ties) && this !in ties && NoDuplicates(sinks)
    }

    constructor ()
      ensures Valid() && sinks == [] && ties == []
    {
      sinks, ties, tieCount := [], [], 0;
    }

    /** The sink is handed over, so no logger has it yet. */
    method AddSink(s: Sink?)
      requires Valid() && s !in sinks
      modifies this
      ensures Valid() && ties == old(ties) && sinks == if s == null then old(sinks) else old(sinks) + [s]
    {
      if s != null { sinks := sinks + [s]; }
    }

    method ClearSinks()
      requires Valid()
      modifies this
      ensures Valid() && ties == old(ties) && sinks == []
    {
      sinks := [];
    }

    /** `std::find` */
    method FindTie(other: Logger) returns (it: nat)
      ensures it <= |ties| && other !in ties[..it] && (it < |ties| ==> ties[it] == other)
    {
      it := 0;
      while it < |ties| && ties[it] != other
        invariant it <= |ties| && other !in ties[..it]
      {
        it := it + 1;
      }
    }

    method Tie(other: Logger)
      requires Valid()
      modifies this
      ensures Valid() && sinks == old(sinks)
      ensures ties == if other == this || other in old(ties) then old(ties) else old(ties) + [other]
    {
      if other == this { return; }
      var it := FindTie(other);
      if it == |ties| {
        assert ties[..it] == ties;
        ties := ties + [other];
        tieCount := |ties|;
      }
    }

    method Untie(other: Logger)
      requires Valid()
      modifies this
      ensures Valid() && sinks == old(sinks)
      ensures forall l :: l in ties <==> l in old(ties) && l != other
    {
      var it := FindTie(other);
      if it != |ties| {
        ghost var was := ties;
        ties := ties[..it] + ties[it + 1..];
        tieCount := |ties|;
        Erased(was, it);
      } else {
        assert ties[..it] == ties;
      }
    }

    /** The loops over the logger's own sinks. */
    method WriteOwn(e: string, ghost own: map<Logger, seq<Sink>>, ghost ss: set<Sink>, ghost p: seq<Logger>)
      requires NoDuplicates(sinks) && this in own && sinks == own[this] && forall s <- sinks :: s in ss
      modifies ss
      ensures Logs(ss) == Written(old(Logs(ss)), e, [p + [this]], own) && Counts(ss) == old(Counts(ss))
    {
      WriteAll(sinks, e);
      forall s | s in ss ensures s.log == old(s.log) + Copies(e, Hits([p + [this]], own, s)) {
        HitsOne(p + [this], own, s);
        NoneOrOne(old(s.log), e);
      }
    }

    method FlushOwn(ghost own: map<Logger, seq<Sink>>, ghost ss: set<Sink>)
      requires NoDuplicates(sinks) && this in own && sinks == own[this] && forall s <- sinks :: s in ss
      modifies ss
      ensures Counts(ss) == Flushed(old(Counts(ss)), [this], own) && Logs(ss) == old(Logs(ss))
    {
      FlushAll(sinks);
      forall s | s in ss ensures s.flushes == old(s.flushes) + Visits([this], own, s) {
        VisitsOne(this, own, s);
      }
    }

    /** `emit`: the entry goes along exactly the paths of Emits, and the visited set is again what
        it was. */
    method Emit(thread: EmitThread, e: string, ghost all: set<Logger>, ghost g: Graph<Logger>, ghost own: map<Logger,
                seq<Sink>>,
                ghost ss: set<Sink>, ghost p: seq<Logger>)
      requires this in all && Network(all, g, own, ss) && thread.visited == Seen(p)
      modifies thread, ss
      ensures thread.visited == old(thread.visited)
      ensures Closed(g) && this in g && Logs(ss) == Written(old(Logs(ss)), e, Emits(g, p, this), own)
      ensures Counts(ss) == old(Counts(ss))
      decreases g.Keys - Seen(p), 1
    {
      NetworkAt(all, g, own, ss, this);
      EmitsCases(g, p, this);
      hide *;
      if tieCount == 0 {
        WriteOwn(e, own, ss, p);
        return;
      }
      EmitGuarded(thread, e, all, g, own, ss, p);
    }

    /** The path of `emit` that looks at the visited set. */
    method EmitGuarded(thread: EmitThread, e: string, ghost all: set<Logger>, ghost g: Graph<Logger>,
                       ghost own: map<Logger, seq<Sink>>,
                       ghost ss: set<Sink>, ghost p: seq<Logger>)
      requires this in all && Network(all, g, own, ss) && thread.visited == Seen(p)
      modifies thread, ss
      ensures thread.visited == old(thread.visited)
      ensures Closed(g) && this in g
      ensures Logs(ss) == Written(old(Logs(ss)), e,
                                  if this in p then [] else [p + [this]] + EmitsAll(g, p + [this], g[this]), own)
      ensures Counts(ss) == old(Counts(ss))
      decreases g.Keys - Seen(p), 0
    {
      NetworkAt(all, g, own, ss, this);
      EmitsCases(g, p, this);
      hide *;
      WrittenNone(Logs(ss), e, own);
      var inserted := EnterVisit(thread, this, ss);
      if !inserted { return; }
      EmitOnward(thread, e, all, g, own, ss, p);
      Removed(Seen(p), this);
      LeaveVisit(thread, this, ss);
    }

    /** What `emit` does between entering this logger into the visited set and taking it out. */
    method EmitOnward(thread: EmitThread, e: string, ghost all: set<Logger>, ghost g: Graph<Logger>,
                      ghost own: map<Logger, seq<Sink>>,
                      ghost ss: set<Sink>, ghost p: seq<Logger>)
      requires this in all && Network(all, g, own, ss) && this !in p && thread.visited == Seen(p) + {this}
      modifies thread, ss
      ensures thread.visited == old(thread.visited)
      ensures Closed(g) && this in g && (forall t <- g[this] :: t in g)
      ensures Logs(ss) == Written(old(Logs(ss)), e, [p + [this]] + EmitsAll(g, p + [this], g[this]), own)
      ensures Counts(ss) == old(Counts(ss))
      decreases g.Keys - Seen(p + [this]), 3
    {
      NetworkAt(all, g, own, ss, this);
      SeenMore(p, this);
      hide *;
      ghost var logs, q := Logs(ss), p + [this];
      WriteOwn(e, own, ss, p);
      var snapshot := ties;
      EmitTies(thread, e, snapshot, all, g, own, ss, q);
      WrittenTwice(logs, e, [q], EmitsAll(g, q, snapshot), own);
    }

    /** `for (Logger* t : snapshot) t->emit(...)` */
    static method EmitTies(thread: EmitThread, e: string, snapshot: seq<Logger>, ghost all: set<Logger>,
                           ghost g: Graph<Logger>,
                           ghost own: map<Logger, seq<Sink>>, ghost ss: set<Sink>, ghost q: seq<Logger>)
      requires Network(all, g, own, ss) && thread.visited == Seen(q) && forall t <- snapshot :: t in all && t in g
      modifies thread, ss
      ensures thread.visited == old(thread.visited)
      ensures Closed(g) && Logs(ss) == Written(old(Logs(ss)), e, EmitsAll(g, q, snapshot), own)
      ensures Counts(ss) == old(Counts(ss))
      decreases g.Keys - Seen(q), 2
    {
      NetworkClosed(all, g, own, ss);
      hide *;
      ghost var logs := Logs(ss);
      EmitsNone(g, q);
      WrittenNone(logs, e, own);
      assert snapshot[..0] == [];
      for i := 0 to |snapshot|
        invariant thread.visited == Seen(q) && Counts(ss) == old(Counts(ss)) && Network(all, g, own, ss)
        invariant Logs(ss) == Written(logs, e, EmitsAll(g, q, snapshot[..i]), own)
      {
        snapshot[i].Emit(thread, e, all, g, own, ss, q);
        WrittenTwice(logs, e, EmitsAll(g, q, snapshot[..i]), Emits(g, q, snapshot[i]), own);
        EmitsSnoc(g, q, snapshot, i);
      }
      assert snapshot[..|snapshot|] == snapshot;
    }

    /** `flush`: exactly the loggers of Flushes, in that order. */
    method Flush(thread: EmitThread, ghost all: set<Logger>, ghost g: Graph<Logger>, ghost own: map<Logger, seq<Sink>>,
                 ghost ss: set<Sink>, ghost p: seq<Logger>)
      requires this in all && Network(all, g, own, ss) && thread.visited == Seen(p)
      modifies thread, ss
      ensures thread.visited == old(thread.visited)
      ensures Closed(g) && this in g && Counts(ss) == Flushed(old(Counts(ss)), Flushes(g, p, this), own)
      ensures Logs(ss) == old(Logs(ss))
      decreases g.Keys - Seen(p), 1
    {
      NetworkAt(all, g, own, ss, this);
      FlushesCases(g, p, this);
      hide *;
      ghost var counts := Counts(ss);
      FlushOwn(own, ss);
      var snapshot := ties;
      FlushOnward(thread, snapshot, all, g, own, ss, p);
      if this !in p { FlushedTwice(counts, [this], FlushesAll(g, p + [this], snapshot), own); }
    }

    method FlushOnward(thread: EmitThread, snapshot: seq<Logger>, ghost all: set<Logger>, ghost g: Graph<Logger>,
                       ghost own: map<Logger, seq<Sink>>, ghost ss: set<Sink>, ghost p: seq<Logger>)
      requires this in all && Network(all, g, own, ss) && thread.visited == Seen(p) && snapshot == ties
      modifies thread, ss
      ensures thread.visited == old(thread.visited)
      ensures Closed(g) && (forall t <- snapshot :: t in g)
      ensures Counts(ss) == if this in p then old(Counts(ss))
                            else Flushed(old(Counts(ss)), FlushesAll(g, p + [this], snapshot), own)
      ensures Logs(ss) == old(Logs(ss))
      decreases g.Keys - Seen(p), 0
    {
      NetworkAt(all, g, own, ss, this);
      FlushesCases(g, p, this);
      hide *;
      var inserted := EnterVisit(thread, this, ss);
      if !inserted { return; }
      FlushTies(thread, snapshot, all, g, own, ss, p + [this]);
      Removed(Seen(p), this);
      LeaveVisit(thread, this, ss);
    }

    /** `for (Logger* t : snapshot) t->flush()` */
    static method FlushTies(thread: EmitThread, snapshot: seq<Logger>, ghost all: set<Logger>, ghost g: Graph<Logger>,
                            ghost own: map<Logger, seq<Sink>>, ghost ss: set<Sink>, ghost q: seq<Logger>)
      requires Network(all, g, own, ss) && thread.visited == Seen(q) && forall t <- snapshot :: t in all && t in g
      modifies thread, ss
      ensures thread.visited == old(thread.visited)
      ensures Closed(g) && Counts(ss) == Flushed(old(Counts(ss)), FlushesAll(g, q, snapshot), own)
      ensures Logs(ss) == old(Logs(ss))
      decreases g.Keys - Seen(q), 2
    {
      NetworkClosed(all, g, own, ss);
      hide *;
      ghost var counts := Counts(ss);
      FlushesNone(g, q);
      FlushedNone(counts, own);
      assert snapshot[..0] == [];
      for i := 0 to |snapshot|
        invariant thread.visited == Seen(q) && Logs(ss) == old(Logs(ss)) && Network(all, g, own, ss)
        invariant Counts(ss) == Flushed(counts, FlushesAll(g, q, snapshot[..i]), own)
      {
        snapshot[i].Flush(thread, all, g, own, ss, q);
        FlushedTwice(counts, FlushesAll(g, q, snapshot[..i]), Flushes(g, q, snapshot[i]), own);
        FlushesSnoc(g, q, snapshot, i);
      }
      assert snapshot[..|snapshot|] == snapshot;
    }
  }

  lemma Removed<T>(s: set<T>, x: T)
    requires x !in s
    ensures (s + {x}) - {x} == s
  {
  }

  /** The thread's own state is no sink. */
  lemma Apart(thread: EmitThread, ss: set<Sink>)
    ensures forall s <- ss :: (s as object) != (thread as object)
  {
  }

  /** `VisitGuard`, its constructor and its destructor: neither touches a sink or a logger. */
  method EnterVisit(thread: EmitThread, x: Logger, ghost ss: set<Sink>) returns (inserted: bool)
    modifies thread
    ensures thread.visited == old(thread.visited) + {x} && (inserted <==> x !in old(thread.visited))
    ensures Logs(ss) == old(Logs(ss)) && Counts(ss) == old(Counts(ss))
  {
    Apart(thread, ss);
    inserted := x !in thread.visited;
    thread.visited := thread.visited + {x};
  }

  method LeaveVisit(thread: EmitThread, x: Logger, ghost ss: set<Sink>)
    modifies thread
    ensures thread.visited == old(thread.visited) - {x}
    ensures Logs(ss) == old(Logs(ss)) && Counts(ss) == old(Counts(ss))
  {
    Apart(thread, ss);
    thread.visited := thread.visited - {x};
  }

  lemma NetworkClosed(all: set<Logger>, g: Graph<Logger>, own: map<Logger, seq<Sink>>, ss: set<Sink>)
    requires Network(all, g, own, ss)
    ensures Closed(g)
  {
  }

  lemma EmitsNone(g: Graph<Logger>, p: seq<Logger>)
    requires Closed(g)
    ensures EmitsAll(g, p, []) == []
  {
  }

  lemma FlushesNone(g: Graph<Logger>, p: seq<Logger>)
    requires Closed(g)
    ensures FlushesAll(g, p, []) == []
  {
  }

  lemma FlushedNone(counts: map<Sink, nat>, own: map<Logger, seq<Sink>>)
    ensures Flushed(counts, [], own) == counts
  {
  }

  lemma NetworkAt(all: set<Logger>, g: Graph<Logger>, own: map<Logger, seq<Sink>>, ss: set<Sink>, l: Logger)
    requires Network(all, g, own, ss) && l in all
    ensures l in g && l in own && Closed(g) && l.tieCount == |l.ties| && NoDuplicates(l.sinks)
    ensures l.ties == g[l] && l.sinks == own[l]
    ensures forall s <- l.sinks :: s in ss
    ensures forall t <- l.ties :: t in all && t in g
  {
  }

  lemma NoneOrOne(log: seq<string>, e: string)
    ensures log + Copies(e, 0) == log && log + Copies(e, 1) == log + [e]
  {
  }

  lemma EmitsCases(g: Graph<Logger>, p: seq<Logger>, n: Logger)
    requires Closed(g) && n in g
    ensures forall m <- g[n] :: m in g
    ensures Emits(g, p, n) == if g[n] == [] then [p + [n]]
                              else if n in p then [] else [p + [n]] + EmitsAll(g, p + [n], g[n])
    ensures g.Keys - Seen(p + [n]) <= g.Keys - Seen(p) && (n !in p ==> g.Keys - Seen(p + [n]) < g.Keys - Seen(p))
    ensures Seen(p + [n]) == Seen(p) + {n} && (n in Seen(p) <==> n in p)
  {
    SeenMore(p, n);
  }

  lemma EmitsSnoc(g: Graph<Logger>, p: seq<Logger>, ns: seq<Logger>, i: nat)
    requires Closed(g) && (forall n <- ns :: n in g) && i < |ns|
    ensures EmitsAll(g, p, ns[..i + 1]) == EmitsAll(g, p, ns[..i]) + Emits(g, p, ns[i])
  {
    assert ns[..i + 1][..i] == ns[..i];
  }

  lemma FlushesCases(g: Graph<Logger>, p: seq<Logger>, n: Logger)
    requires Closed(g) && n in g
    ensures Flushes(g, p, n) == if n in p then [n] else [n] + FlushesAll(g, p + [n], g[n])
    ensures g.Keys - Seen(p + [n]) <= g.Keys - Seen(p) && (n !in p ==> g.Keys - Seen(p + [n]) < g.Keys - Seen(p))
    ensures Seen(p + [n]) == Seen(p) + {n} && (n in Seen(p) <==> n in p)
  {
    SeenMore(p, n);
  }

  lemma FlushesSnoc(g: Graph<Logger>, p: seq<Logger>, ns: seq<Logger>, i: nat)
    requires Closed(g) && (forall n <- ns :: n in g) && i < |ns|
    ensures FlushesAll(g, p, ns[..i + 1]) == FlushesAll(g, p, ns[..i]) + Flushes(g, p, ns[i])
  {
    assert ns[..i + 1][..i] == ns[..i];
  }

  lemma Erased<T>(s: seq<T>, i: nat)
    requires i < |s| && NoDuplicates(s)
    ensures NoDuplicates(s[..i] + s[i + 1..])
    ensures forall x :: x in s[..i] + s[i + 1..] <==> x in s && x != s[i]
  {
  }

  // ---------------------------------------------------------------- a whole emit

  /** w lists the simple paths from l, all of them and each once. */
  ghost predicate ListsPaths(w: seq<seq<Logger>>, g: Graph<Logger>, l: Logger) {
    && NoDuplicates(w)
    && (forall i :: 0 <= i < |w| ==> IsSimplePath(g, w[i]) && w[i][0] == l)
    && (forall q :: IsSimplePath(g, q) && q[0] == l ==> q in w)
  }

  lemma EmitsListsPaths(g: Graph<Logger>, l: Logger)
    requires Closed(g) && l in g
    ensures ListsPaths(Emits(g, [], l), g, l)
  {
    hide Emits, Closed;
    var w := Emits(g, [], l);
    EmitsSimplePaths(g, l, []);
    forall i | 0 <= i < |w| ensures IsSimplePath(g, w[i]) && w[i][0] == l {
      EmitsSimplePaths(g, l, w[i]);
    }
    forall q | IsSimplePath(g, q) && q[0] == l ensures q in w {
      EmitsSimplePaths(g, l, q);
    }
  }

  /** Only this logger owns the sink. */
  ghost predicate SoleOwner(own: map<Logger, seq<Sink>>, s: Sink, owner: Logger) {
    owner in own && s in own[owner] && forall l <- own :: s in own[l] ==> l == owner
  }

  ghost predicate EndsAt(q: seq<Logger>, m: Logger) {
    q != [] && q[|q| - 1] == m
  }

  ghost predicate NoneEnds(w: seq<seq<Logger>>, m: Logger) {
    forall i :: 0 <= i < |w| ==> !EndsAt(w[i], m)
  }

  ghost predicate OneEnds(w: seq<seq<Logger>>, m: Logger) {
    exists k :: 0 <= k < |w| && EndsAt(w[k], m) && forall i :: 0 <= i < |w| && EndsAt(w[i], m) ==> i == k
  }

  lemma NoneEndsMore(w: seq<seq<Logger>>, q: seq<Logger>, m: Logger)
    ensures NoneEnds([], m) && (NoneEnds(w + [q], m) <==> NoneEnds(w, m) && !EndsAt(q, m))
  {
    assert (w + [q])[|w|] == q;
    assert forall i :: 0 <= i < |w| ==> (w + [q])[i] == w[i];
    hide EndsAt;
  }

  lemma OneEndsMore(w: seq<seq<Logger>>, q: seq<Logger>, m: Logger)
    ensures !OneEnds([], m)
    ensures OneEnds(w + [q], m) <==> if EndsAt(q, m) then NoneEnds(w, m) else OneEnds(w, m)
  {
    hide EndsAt;
    var all := w + [q];
    assert all[|w|] == q && forall i :: 0 <= i < |w| ==> all[i] == w[i];
    if OneEnds(all, m) {
      var k :| 0 <= k < |all| && EndsAt(all[k], m) && forall i :: 0 <= i < |all| && EndsAt(all[i], m) ==> i == k;
      if k < |w| { assert EndsAt(w[k], m); }
    }
    if EndsAt(q, m) && NoneEnds(w, m) {
      assert EndsAt(all[|w|], m);
    }
    if !EndsAt(q, m) && OneEnds(w, m) {
      var k :| 0 <= k < |w| && EndsAt(w[k], m) && forall i :: 0 <= i < |w| && EndsAt(w[i], m) ==> i == k;
      assert EndsAt(all[k], m);
    }
  }

  lemma HitsMore(w: seq<seq<Logger>>, own: map<Logger, seq<Sink>>, s: Sink, owner: Logger)
    requires SoleOwner(own, s, owner)
    ensures w == [] ==> Hits(w, own, s) == 0
    ensures w != [] ==> Hits(w, own, s) == Hits(w[..|w| - 1], own, s) + (if EndsAt(w[|w| - 1], owner) then 1 else 0)
  {
  }

  lemma {:induction false} NoPathNoEntry(w: seq<seq<Logger>>, own: map<Logger, seq<Sink>>, s: Sink, owner: Logger)
    requires SoleOwner(own, s, owner)
    ensures Hits(w, own, s) == 0 <==> NoneEnds(w, owner)
    decreases |w|
  {
    hide *;
    HitsMore(w, own, s, owner);
    if w == [] {
      NoneEndsMore([], [], owner);
    } else {
      NoPathNoEntry(w[..|w| - 1], own, s, owner);
      NoneEndsMore(w[..|w| - 1], w[|w| - 1], owner);
      assert w == w[..|w| - 1] + [w[|w| - 1]];
    }
  }

  /** One copy of an entry, exactly if one path of the list ends at the owner. */
  lemma {:induction false} OnePathOneEntry(w: seq<seq<Logger>>, own: map<Logger, seq<Sink>>, s: Sink, owner: Logger)
    requires SoleOwner(own, s, owner)
    ensures Hits(w, own, s) == 1 <==> OneEnds(w, owner)
    decreases |w|
  {
    hide *;
    HitsMore(w, own, s, owner);
    if w == [] {
      OneEndsMore([], [], owner);
    } else {
      OnePathOneEntry(w[..|w| - 1], own, s, owner);
      NoPathNoEntry(w[..|w| - 1], own, s, owner);
      OneEndsMore(w[..|w| - 1], w[|w| - 1], owner);
      assert w == w[..|w| - 1] + [w[|w| - 1]];
    }
  }

  lemma ListedLeads(w: seq<seq<Logger>>, g: Graph<Logger>, l: Logger, m: Logger)
    requires ListsPaths(w, g, l)
    ensures NoDuplicates(w)
    ensures forall i :: 0 <= i < |w| ==> (Leads(g, l, m, w[i]) <==> EndsAt(w[i], m))
    ensures forall r :: Leads(g, l, m, r) ==> r in w
  {
    forall i | 0 <= i < |w| ensures Leads(g, l, m, w[i]) <==> EndsAt(w[i], m) {
      assert IsSimplePath(g, w[i]) && w[i][0] == l;
    }
  }

  lemma OneListed(w: seq<seq<Logger>>, g: Graph<Logger>, l: Logger, m: Logger)
    requires NoDuplicates(w) && forall i :: 0 <= i < |w| ==> (Leads(g, l, m, w[i]) <==> EndsAt(w[i], m))
    requires forall r :: Leads(g, l, m, r) ==> r in w
    ensures OneEnds(w, m) ==> OneWay(g, l, m)
  {
    hide Leads, EndsAt, NoDuplicates;
    if OneEnds(w, m) {
      var k :| 0 <= k < |w| && EndsAt(w[k], m) && forall i :: 0 <= i < |w| && EndsAt(w[i], m) ==> i == k;
      forall r | Leads(g, l, m, r) ensures r == w[k] {
        var i :| 0 <= i < |w| && w[i] == r;
      }
    }
  }

  lemma ListedOne(w: seq<seq<Logger>>, g: Graph<Logger>, l: Logger, m: Logger)
    requires NoDuplicates(w) && forall i :: 0 <= i < |w| ==> (Leads(g, l, m, w[i]) <==> EndsAt(w[i], m))
    requires forall r :: Leads(g, l, m, r) ==> r in w
    ensures OneWay(g, l, m) ==> OneEnds(w, m)
  {
    hide Leads, EndsAt;
    if OneWay(g, l, m) {
      var q :| Leads(g, l, m, q) && forall r :: Leads(g, l, m, r) ==> r == q;
      var k :| 0 <= k < |w| && w[k] == q;
      forall i | 0 <= i < |w| && EndsAt(w[i], m) ensures i == k {
        assert Leads(g, l, m, w[i]);
      }
    }
  }

  /** A sink gets one copy exactly if there is one simple path to its owner. */
  lemma OnceIff(g: Graph<Logger>, l: Logger, own: map<Logger, seq<Sink>>, s: Sink, owner: Logger)
    requires Closed(g) && l in g && SoleOwner(own, s, owner)
    ensures Hits(Emits(g, [], l), own, s) == 1 <==> OneWay(g, l, owner)
  {
    hide *;
    EmitsListsPaths(g, l);
    OnePathOneEntry(Emits(g, [], l), own, s, owner);
    ListedLeads(Emits(g, [], l), g, l, owner);
    OneListed(Emits(g, [], l), g, l, owner);
    ListedOne(Emits(g, [], l), g, l, owner);
  }

  lemma OneCopy(log: seq<string>, e: string, n: nat)
    ensures log + Copies(e, n) == log + [e] <==> n == 1
  {
    assert |log + Copies(e, n)| == |log| + n;
    assert Copies(e, 1) == [e];
  }

  /** `emit` called from outside: every sink gets the entry once for each simple tie path from this
      logger to its owner, so exactly once if and only if there is one such path. */
  method EmitFrom(l: Logger, thread: EmitThread, e: string, ghost all: set<Logger>, ghost g: Graph<Logger>,
                  ghost own: map<Logger, seq<Sink>>, ghost ss: set<Sink>)
      returns (ghost w: seq<seq<Logger>>)
    requires l in all && Network(all, g, own, ss) && thread.visited == {}
    modifies thread, ss
    ensures thread.visited == {}
    ensures Closed(g) && l in g && w == Emits(g, [], l) && ListsPaths(w, g, l)
    ensures Logs(ss) == Written(old(Logs(ss)), e, w, own)
    ensures forall s <- ss, owner <- all :: SoleOwner(own, s, owner) ==>
      (s.log == old(s.log) + [e] <==> OneWay(g, l, owner))
    ensures forall s <- ss :: |s.log| == |old(s.log)| + Hits(w, own, s) && s.log[..|old(s.log)|] == old(s.log)
    ensures forall s <- ss, i | |old(s.log)| <= i < |s.log| :: s.log[i] == e
  {
    NetworkAt(all, g, own, ss, l);
    hide Written, Logs, Counts, Emits, Hits, Network, ListsPaths, SoleOwner, OneWay, Closed;
    ghost var logs := Logs(ss);
    LogsAre(ss);
    l.Emit(thread, e, all, g, own, ss, []);
    LogsAre(ss);
    w := Emits(g, [], l);
    EmitsListsPaths(g, l);
    forall s | s in ss ensures s.log == old(s.log) + Copies(e, Hits(w, own, s)) {
      WrittenAt(logs, e, w, own, s);
    }
    forall s, owner | s in ss && owner in all && SoleOwner(own, s, owner)
      ensures s.log == old(s.log) + [e] <==> OneWay(g, l, owner)
    {
      OnceIff(g, l, own, s, owner);
      OneCopy(old(s.log), e, Hits(w, own, s));
    }
  }

  lemma CountsAre(ss: set<Sink>)
    ensures forall s <- ss :: s in Counts(ss) && Counts(ss)[s] == s.flushes
  {
  }

  lemma FlushedAt(counts: map<Sink, nat>, w: seq<Logger>, own: map<Logger, seq<Sink>>, s: Sink)
    requires s in counts
    ensures s in Flushed(counts, w, own) && Flushed(counts, w, own)[s] == counts[s] + Visits(w, own, s)
  {
  }

  /** A sink is flushed if one of the visited loggers owns it. */
  lemma {:induction false} VisitsSome(w: seq<Logger>, own: map<Logger, seq<Sink>>, s: Sink)
    ensures Visits(w, own, s) > 0 <==> exists i :: 0 <= i < |w| && w[i] in own && s in own[w[i]]
    decreases |w|
  {
    if w != [] {
      var front := w[..|w| - 1];
      VisitsSome(front, own, s);
      if i :| 0 <= i < |front| && front[i] in own && s in own[front[i]] { assert w[i] in own && s in own[w[i]]; }
    }
  }

  /** s belongs to a logger that can be reached from l. */
  ghost predicate Reached(g: Graph<Logger>, own: map<Logger, seq<Sink>>, l: Logger, s: Sink) {
    exists p :: IsPath(g, p) && p[0] == l && p[|p| - 1] in own && s in own[p[|p| - 1]]
  }

  lemma VisitedIffReached(g: Graph<Logger>, l: Logger, own: map<Logger, seq<Sink>>, s: Sink)
    requires Closed(g) && l in g
    ensures Visits(Flushes(g, [], l), own, s) > 0 <==> Reached(g, own, l, s)
  {
    var w := Flushes(g, [], l);
    VisitsSome(w, own, s);
    hide Visits, Flushes, Closed;
    if p :| IsPath(g, p) && p[0] == l && p[|p| - 1] in own && s in own[p[|p| - 1]] {
      ReachesAll(g, p);
      var i :| 0 <= i < |w| && w[i] == p[|p| - 1];
    }
    if i :| 0 <= i < |w| && w[i] in own && s in own[w[i]] {
      var q := FlushesReachable(g, [], l, i);
    }
  }

  lemma FlushAlone(g: Graph<Logger>, l: Logger, own: map<Logger, seq<Sink>>, s: Sink)
    requires Closed(g) && l in g && g[l] == []
    ensures Visits(Flushes(g, [], l), own, s) == if l in own && s in own[l] then 1 else 0
  {
    assert Flushes(g, [], l) == [l];
    VisitsOne(l, own, s);
  }

  /** `flush` called from outside: exactly the sinks of the loggers that can be reached are flushed,
      and without ties exactly once; nothing is written. */
  method FlushFrom(l: Logger, thread: EmitThread, ghost all: set<Logger>, ghost g: Graph<Logger>,
                   ghost own: map<Logger, seq<Sink>>, ghost ss: set<Sink>)
    requires l in all && Network(all, g, own, ss) && thread.visited == {}
    modifies thread, ss
    ensures thread.visited == {} && Logs(ss) == old(Logs(ss))
    ensures Closed(g) && l in g && l in own
    ensures forall s <- ss :: s.flushes >= old(s.flushes) && (s.flushes > old(s.flushes) <==> Reached(g, own, l, s))
    ensures g[l] == [] ==> forall s <- ss :: s.flushes == old(s.flushes) + if s in own[l] then 1 else 0
  {
    NetworkAt(all, g, own, ss, l);
    hide Flushed, Logs, Counts, Flushes, Visits, Network, Reached, Closed;
    ghost var counts := Counts(ss);
    CountsAre(ss);
    l.Flush(thread, all, g, own, ss, []);
    CountsAre(ss);
    forall s | s in ss
      ensures s.flushes >= old(s.flushes) && (s.flushes > old(s.flushes) <==> Reached(g, own, l, s))
      ensures g[l] == [] ==> s.flushes == old(s.flushes) + if s in own[l] then 1 else 0
    {
      FlushedAt(counts, Flushes(g, [], l), own, s);
      VisitedIffReached(g, l, own, s);
      if g[l] == [] { FlushAlone(g, l, own, s); }
    }
  }

  lemma LogsAre(ss: set<Sink>)
    ensures forall s <- ss :: s in Logs(ss) && Logs(ss)[s] == s.log
  {
  }

  lemma WrittenAt(logs: map<Sink, seq<string>>, e: string, w: seq<seq<Logger>>, own: map<Logger, seq<Sink>>, s: Sink)
    requires s in logs
    ensures s in Written(logs, e, w, own) && Written(logs, e, w, own)[s] == logs[s] + Copies(e, Hits(w, own, s))
  {
  }

  // ---------------------------------------------------------------- one emit per logger?

  function Ends(q: seq<Logger>, m: Logger): nat {
    if q != [] && q[|q| - 1] == m then 1 else 0
  }

  lemma HitsAt(w: seq<seq<Logger>>, own: map<Logger, seq<Sink>>, s: Sink, owner: Logger, q: seq<Logger>)
    requires SoleOwner(own, s, owner)
    ensures Hits(w + [q], own, s) == Hits(w, own, s) + Ends(q, owner)
  {
    HitsConcat(w, [q], own, s);
    HitsOne(q, own, s);
  }

  lemma HitsFive(a: seq<Logger>, b: seq<Logger>, c: seq<Logger>, d: seq<Logger>, e: seq<Logger>,
                 own: map<Logger, seq<Sink>>, s: Sink, owner: Logger)
    requires SoleOwner(own, s, owner)
    ensures Hits([a, b, c, d, e], own, s)
         == Ends(a, owner) + Ends(b, owner) + Ends(c, owner) + Ends(d, owner) + Ends(e, owner)
  {
    NoHits(own, s);
    hide *;
    HitsAt([], own, s, owner, a);
    HitsAt([a], own, s, owner, b);
    HitsAt([a, b], own, s, owner, c);
    HitsAt([a, b, c], own, s, owner, d);
    HitsAt([a, b, c, d], own, s, owner, e);
    assert [] + [a] == [a] && [a] + [b] == [a, b] && [a, b] + [c] == [a, b, c];
    assert [a, b, c] + [d] == [a, b, c, d] && [a, b, c, d] + [e] == [a, b, c, d, e];
  }

  lemma NoHits(own: map<Logger, seq<Sink>>, s: Sink)
    ensures Hits([], own, s) == 0
  {
  }

  /** Two loggers tied to each other get one entry each. */
  lemma PairOnce(a: Logger, b: Logger, own: map<Logger, seq<Sink>>, s: Sink, owner: Logger)
    requires a != b && SoleOwner(own, s, owner) && owner in {a, b}
    ensures var g: Graph<Logger> := map[a := [b], b := [a]];
            Closed(g) && Hits(Emits(g, [], a), own, s) == 1
  {
    Pair(a, b);
    NoHits(own, s);
    hide Hits, SoleOwner, Emits, Closed;
    HitsAt([], own, s, owner, [a]);
    HitsAt([[a]], own, s, owner, [a, b]);
    assert [] + [[a]] == [[a]] && [[a]] + [[a, b]] == [[a], [a, b]];
  }

  /** Three loggers all tied to each other do not: the other two get two entries. */
  lemma TriangleTwice(a: Logger, b: Logger, c: Logger, own: map<Logger, seq<Sink>>, s: Sink, owner: Logger)
    requires a != b && a != c && b != c && SoleOwner(own, s, owner) && owner in {a, b, c}
    ensures var g: Graph<Logger> := map[a := [b, c], b := [a, c], c := [a, b]];
            Closed(g) && Hits(Emits(g, [], a), own, s) == if owner == a then 1 else 2
  {
    Triangle(a, b, c);
    HitsFive([a], [a, b], [a, b, c], [a, c], [a, c, b], own, s, owner);
    hide Hits, SoleOwner, Emits, Closed;
  }

  /** Nor does the far end of a diamond. */
  lemma DiamondTwice(a: Logger, b: Logger, c: Logger, d: Logger, own: map<Logger, seq<Sink>>, s: Sink, owner: Logger)
    requires a != b && a != c && a != d && b != c && b != d && c != d && SoleOwner(own, s, owner)
    requires owner in {a, b, c, d}
    ensures var g: Graph<Logger> := map[a := [b, c], b := [d], c := [d], d := []];
            Closed(g) && Hits(Emits(g, [], a), own, s) == if owner == d then 2 else 1
  {
    Diamond(a, b, c, d);
    HitsFive([a], [a, b], [a, b, d], [a, c], [a, c, d], own, s, owner);
    hide Hits, SoleOwner, Emits, Closed;
  }

  /** Every logger that can be reached gets one entry, exactly if none of them is tied from two
      loggers that can both be reached without passing it. */
  lemma OnePerLoggerIff(g: Graph<Logger>, l: Logger, own: map<Logger, seq<Sink>>, sinkOf: map<Logger, Sink>)
    requires Closed(g) && l in g && sinkOf.Keys == g.Keys && forall m <- g :: SoleOwner(own, sinkOf[m], m)
    ensures (forall m <- g :: Hits(Emits(g, [], l), own, sinkOf[m]) <= 1) <==> OneEntrance(g, l)
  {
    OneWayIff(g, l);
    forall m | m in g
      ensures Hits(Emits(g, [], l), own, sinkOf[m]) == 1 <==> OneWay(g, l, m)
      ensures Hits(Emits(g, [], l), own, sinkOf[m]) == 0 <==> !exists q :: Leads(g, l, m, q)
    {
      OnceIff(g, l, own, sinkOf[m], m);
      NoneIff(g, l, own, sinkOf[m], m);
    }
    hide Hits, Emits, OneWay, Leads, OneEntrance, SoleOwner, Closed;
  }

  lemma NoneIff(g: Graph<Logger>, l: Logger, own: map<Logger, seq<Sink>>, s: Sink, owner: Logger)
    requires Closed(g) && l in g && SoleOwner(own, s, owner)
    ensures Hits(Emits(g, [], l), own, s) == 0 <==> !exists q :: Leads(g, l, owner, q)
  {
    var w := Emits(g, [], l);
    EmitsListsPaths(g, l);
    NoPathNoEntry(w, own, s, owner);
    ListedLeads(w, g, l, owner);
    hide Emits, Hits, Leads, Closed, SoleOwner, ListsPaths, EndsAt;
    if q :| Leads(g, l, owner, q) {
      var i :| 0 <= i < |w| && w[i] == q;
    }
  }
}
