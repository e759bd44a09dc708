/** What flushing loggers does to the summaries that wait in the dedup sites: nothing. */
module Summaries {
  import opened TieGraphs
  import opened Loggers
  import opened Dedups
  import opened DedupRegistries

  /** A flush of any logger writes to no sink and leaves every site as it is, so a summary waits
      afterwards if and only if it did before. */
  method FlushKeepsWaiting(l: Logger, thread: EmitThread, ghost all: set<Logger>, ghost g: Graph<Logger>,
                           ghost own: map<Logger, seq<Sink>>, ghost ss: set<Sink>, ghost p: seq<Logger>,
                           r: DedupRegistry)
    requires l in all && Network(all, g, own, ss) && thread.visited == Seen(p) && r.Valid()
    modifies thread, ss
    ensures Logs(ss) == old(Logs(ss))
    ensures r.Valid() && r.states == old(r.states) && r.st == old(r.st) && r.last == old(r.last)
    ensures forall s <- r.states :: unchanged(s)
  {
    hide Settled, Network;
    l.Flush(thread, all, g, own, ss, p);
  }

  lemma SiteShown(r: DedupRegistry, i: nat)
    requires r.Valid() && i < |r.states|
    ensures WellFormed(r.st) && |r.st.sites| == |r.states| && r.states[i].suppressed == r.st.sites[i].suppressed
  {
  }

  /** One more call of the site that fired last. */
  method SuppressOne(r: DedupRegistry, i: nat)
    requires r.Valid() && i < |r.states| && r.st.last == i
    modifies r, r.states
    ensures r.Valid() && r.states == old(r.states) && i < |r.st.sites|
    ensures r.st.sites[i].suppressed == old(r.states[i].suppressed) + 1
  {
    TickedSites(r.st, i, true);
    hide Ticked, Settled, IsCall, Alone;
    var _, _ := r.Tick(i, true);
  }

  /** A call of the site that fired last waits through the flush of a logger, and comes out with the
      registry's own. */
  method FlushThenFlushAll(l: Logger, thread: EmitThread, ghost all: set<Logger>, ghost g: Graph<Logger>,
                           ghost own: map<Logger, seq<Sink>>, ghost ss: set<Sink>, ghost p: seq<Logger>,
                           r: DedupRegistry, i: nat)
    returns (waiting: nat, reported: nat)
    requires l in all && Network(all, g, own, ss) && thread.visited == Seen(p)
    requires r.Valid() && i < |r.states| && r.st.last == i
    modifies thread, ss, r, r.states
    ensures Logs(ss) == old(Logs(ss))
    ensures reported == waiting == old(r.states[i].suppressed) + 1
  {
    hide *;
    SiteShown(r, i);
    SuppressOne(r, i);
    FlushKeepsWaiting(l, thread, all, g, own, ss, p, r);
    SiteShown(r, i);
    waiting := r.states[i].suppressed;
    var summaries := r.FlushAll(true);
    reported := summaries[i];
  }
}
