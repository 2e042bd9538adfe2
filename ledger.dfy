/**
 * What the background script's writes mean to the popup: each write read back
 * through the popup's `normalizeData`, and the total of a run of flushes.
 */
module Ledger {
  import opened Wrappers
  import opened Entries
  import opened Background
  import opened Popup

  /** The record the popup shows for url on date. */
  function ShownStat(store: Store, date: string, url: string): Stat {
    NormalizeData(At(store, date, url))
  }

  /**
   * A flush adds exactly the elapsed time to the URL's shown time; it counts no
   * visit, except that an entry it creates starts at one visit.
   */
  lemma FlushAddsElapsed(store: Store, today: string, url: string, elapsed: int)
    ensures ShownStat(FlushStore(store, today, url, elapsed), today, url).time ==
            ShownStat(store, today, url).time + elapsed
    ensures ShownStat(FlushStore(store, today, url, elapsed), today, url).visits ==
            if At(store, today, url) == None then 1 else ShownStat(store, today, url).visits
  {
  }

  /**
   * A counted visit leaves the shown time alone and adds one shown visit, except
   * on a legacy entry of 0, which is taken for an absent one and stays at one visit.
   */
  lemma BumpAddsVisit(store: Store, today: string, url: string)
    ensures ShownStat(BumpStore(store, today, url), today, url).time == ShownStat(store, today, url).time
    ensures ShownStat(BumpStore(store, today, url), today, url).visits ==
            if At(store, today, url) == Some(Legacy(0)) then 1 else ShownStat(store, today, url).visits + 1
  {
  }

  /**
   * Flushing at t1, ..., tn an interval opened at t0 adds exactly tn - t0 to the
   * URL's time: no gap and no overlap between flushes. Every other URL and date
   * keeps its entry.
   */
  lemma {:induction false} FlushSeriesTotal(store: Store, today: string, url: string, start: int, ticks: seq<int>)
    requires ticks != []
    ensures ShownStat(FlushSeries(store, today, url, start, ticks), today, url).time ==
            ShownStat(store, today, url).time + (ticks[|ticks| - 1] - start)
    ensures forall d, u :: d != today || u != url ==>
              At(FlushSeries(store, today, url, start, ticks), d, u) == At(store, d, u)
    decreases |ticks|
  {
    var next := FlushStore(store, today, url, ticks[0] - start);
    FlushAddsElapsed(store, today, url, ticks[0] - start);
    if |ticks| > 1 {
      FlushSeriesTotal(next, today, url, ticks[0], ticks[1..]);
    }
  }
}
