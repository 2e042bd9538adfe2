/**
 * The background script: a dwell-time accumulator and a visit classifier over
 * three pieces of module state (the current tab, the start of the open interval
 * and the classifier's map), writing into the day buckets of local storage.
 */
module Background {
  import opened Wrappers
  import opened Decimal
  import opened Duration
  import opened Urls
  import opened Entries

  /** The background script's own `formatTime`: always "<m>m <s>s". */
  function FormatTimeLong(ms: nat): string {
    NatToString(ms / MsPerMinute) + "m " + NatToString((ms % MsPerMinute) / MsPerSecond) + "s"
  }

  lemma FormatTimeLongShows(ms: nat, m: nat, s: nat)
    requires Splits(ms, m, s)
    ensures ParseShown(FormatTimeLong(ms)) == Some(MinutesSeconds(m, s))
    ensures FormatTimeLong(ms) == ShowText(MinutesSeconds(m, s))
  {
    FloorSplits(ms);
    SplitsUnique(ms, m, s, ms / MsPerMinute, (ms % MsPerMinute) / MsPerSecond);
    ParseShownMinutesSeconds(m, s);
  }

  // ---------------------------------------------------------------------------
  // Dwell time: what `updateTime` writes

  /**
   * The record `updateTime` leaves for a URL whose entry was e: an absent entry
   * starts as {time: 0, visits: 1}, a legacy number n as {time: n, visits: 1},
   * and elapsed is then added to the time.
   */
  function Flushed(e: Option<Entry>, elapsed: int): (r: Entry)
    ensures r.Record?
  {
    var init :=
      if Falsy(e) || e.value.Legacy? then
        Stat(if e.Some? && e.value.Legacy? then e.value.value else 0, 1)
      else
        e.value.stat;
    Record(Stat(init.time + elapsed, init.visits))
  }

  /** The store after `updateTime` has flushed elapsed milliseconds into url under today. */
  function FlushStore(store: Store, today: string, url: string, elapsed: int): (r: Store)
    ensures r.Keys == store.Keys + {today}
    ensures DayOf(r, today).Keys == DayOf(store, today).Keys + {url}
    ensures At(r, today, url) == Some(Flushed(At(store, today, url), elapsed))
    ensures forall d, u :: d != today || u != url ==> At(r, d, u) == At(store, d, u)
  {
    var day := DayOf(store, today);
    store[today := day[url := Flushed(Lookup(day, url), elapsed)]]
  }

  /**
   * The store after the flushes of one open interval on url, the interval
   * having started at start and being flushed at each of ticks in turn (each
   * flush rolls the start forward to its own time).
   */
  function FlushSeries(store: Store, today: string, url: string, start: int, ticks: seq<int>): Store
    decreases |ticks|
  {
    if ticks == [] then store
    else FlushSeries(FlushStore(store, today, url, ticks[0] - start), today, url, ticks[0], ticks[1..])
  }

  // ---------------------------------------------------------------------------
  // Visits: what `incrementVisitCount` writes

  /**
   * The record `incrementVisitCount` leaves for a URL whose entry was e, given
   * the visit is new: an absent entry (or the falsy legacy 0) becomes
   * {time: 0, visits: 1}; a legacy number n becomes {time: n, visits: 2}; a
   * record keeps its time and gains one visit.
   */
  function Bumped(e: Option<Entry>): (r: Entry)
    ensures r.Record?
  {
    if Falsy(e) then Record(Stat(0, 1))
    else
      var rec := if e.value.Legacy? then Stat(e.value.value, 1) else e.value.stat;
      Record(Stat(rec.time, rec.visits + 1))
  }

  /** The store after a new visit to url has been counted under today. */
  function BumpStore(store: Store, today: string, url: string): (r: Store)
    ensures r.Keys == store.Keys + {today}
    ensures DayOf(r, today).Keys == DayOf(store, today).Keys + {url}
    ensures At(r, today, url) == Some(Bumped(At(store, today, url)))
    ensures forall d, u :: d != today || u != url ==> At(r, d, u) == At(store, d, u)
  {
    var day := DayOf(store, today);
    store[today := day[url := Bumped(Lookup(day, url))]]
  }

  // ---------------------------------------------------------------------------
  // The visit classifier: `isNewVisit`

  /** A value of the classifier's map: `true` under a pair key, a URL under a current key. */
  datatype Mark = Seen | Current(url: string)

  type Marks = map<string, Mark>

  datatype Verdict = Verdict(isNew: bool, marks: Marks)

  function Get(marks: Marks, key: string): Option<Mark> {
    if key in marks then Some(marks[key]) else None
  }

  /** `lastUrl && lastUrl !== formattedUrl`: "" and undefined are falsy, `true` is truthy. */
  predicate NavigatedAway(last: Option<Mark>, url: string) {
    match last
    case None => false
    case Some(Seen) => true
    case Some(Current(u)) => u != "" && u != url
  }

  /** `isNewVisit(url, tabId)`: whether the observation counts, and the classifier's new map. */
  function Classify(marks: Marks, url: string, tabId: nat): (v: Verdict)
    ensures marks.Keys <= v.marks.Keys
    ensures v.marks.Keys <= marks.Keys + {PairKey(StripTrailingSlashes(url), tabId), CurrentKey(tabId)}
    ensures forall k :: k in marks && k != PairKey(StripTrailingSlashes(url), tabId) && k != CurrentKey(tabId) ==>
              v.marks[k] == marks[k]
    ensures v.isNew ==> PairKey(StripTrailingSlashes(url), tabId) in v.marks
    ensures !v.isNew ==> v.marks == marks
  {
    var formatted := StripTrailingSlashes(url);
    var key := PairKey(formatted, tabId);
    if key !in marks then
      Verdict(true, marks[key := Seen])
    else if NavigatedAway(Get(marks, CurrentKey(tabId)), formatted) then
      Verdict(true, marks[key := Seen][CurrentKey(tabId) := Current(formatted)])
    else
      Verdict(false, marks)
  }

  /** The first sighting of a URL in a tab counts, and records the pair and nothing else. */
  lemma ClassifyFirstSight(marks: Marks, url: string, tabId: nat)
    requires PairKey(StripTrailingSlashes(url), tabId) !in marks
    ensures Classify(marks, url, tabId).isNew
    ensures Classify(marks, url, tabId).marks == marks[PairKey(StripTrailingSlashes(url), tabId) := Seen]
  {
  }

  /**
   * A pair seen before counts only if the tab's current URL is set and differs,
   * and then the tab's current URL becomes this one; otherwise nothing changes.
   */
  lemma ClassifySeenBefore(marks: Marks, url: string, tabId: nat)
    requires PairKey(StripTrailingSlashes(url), tabId) in marks
    ensures var f := StripTrailingSlashes(url);
      var v := Classify(marks, url, tabId);
      (v.isNew <==> NavigatedAway(Get(marks, CurrentKey(tabId)), f)) &&
      (v.isNew ==> v.marks == marks[PairKey(f, tabId) := Seen][CurrentKey(tabId) := Current(f)]) &&
      (!v.isNew ==> v.marks == marks)
  {
  }

  /**
   * Back-to-back identical observations of one URL in one tab: the third never
   * counts, and the second counts only when the first was the pair's first
   * sighting (the first branch does not update the tab's current URL).
   */
  lemma ClassifyRepeats(marks: Marks, url: string, tabId: nat)
    ensures var v1 := Classify(marks, url, tabId);
      var v2 := Classify(v1.marks, url, tabId);
      var v3 := Classify(v2.marks, url, tabId);
      !v3.isNew && (v2.isNew ==> PairKey(StripTrailingSlashes(url), tabId) !in marks)
  {
    var f := StripTrailingSlashes(url);
    StripTrailingSlashesIdempotent(url);
    var v1 := Classify(marks, url, tabId);
    var v2 := Classify(v1.marks, url, tabId);
    assert PairKey(f, tabId) in v1.marks;
    if v2.isNew {
      assert Get(v2.marks, CurrentKey(tabId)) == Some(Current(f));
    }
  }

  /** After the midnight reset the first observation of any pair is a first sighting. */
  lemma ClassifyAfterReset(url: string, tabId: nat)
    ensures Classify(map[], url, tabId).isNew
  {
  }

  /**
   * A tab activated on x that then completes x, y and x again counts x only
   * once, when neither x nor y has been seen in the tab since the reset: the
   * tab's current URL is still x when x returns.
   */
  lemma ClassifyMissesReturn(marks: Marks, x: string, y: string, tabId: nat)
    requires x == StripTrailingSlashes(x) && y == StripTrailingSlashes(y)
    requires x != y && x != "current" && y != "current"
    requires PairKey(x, tabId) !in marks && PairKey(y, tabId) !in marks
    ensures var m0 := marks[CurrentKey(tabId) := Current(x)];
      var v1 := Classify(m0, x, tabId);
      var v2 := Classify(v1.marks, y, tabId);
      var v3 := Classify(v2.marks, x, tabId);
      v1.isNew && v2.isNew && !v3.isNew
  {
    PairKeyMeetsCurrentKey(x, tabId, tabId);
    PairKeyMeetsCurrentKey(y, tabId, tabId);
    if PairKey(x, tabId) == PairKey(y, tabId) {
      PairKeyInjective(x, tabId, y, tabId);
    }
    var m0 := marks[CurrentKey(tabId) := Current(x)];
    var v1 := Classify(m0, x, tabId);
    assert v1.marks == m0[PairKey(x, tabId) := Seen];
    var v2 := Classify(v1.marks, y, tabId);
    assert v2.marks == v1.marks[PairKey(y, tabId) := Seen];
    assert Get(v2.marks, CurrentKey(tabId)) == Some(Current(x));
  }

  // ---------------------------------------------------------------------------
  // The tracker

  /** A browser tab as the handlers receive it; the script reads its url and whether it is active. */
  datatype Tab = Tab(id: nat, url: string, active: bool)

  class Tracker {
    var currentTab: Option<Tab>
    var startTime: Option<int>
    var lastVisitedUrls: Marks
    /** `chrome.storage.local`, one bucket per date key. */
    var store: Store

    /** Script start: no tab, no interval, an empty classifier map, storage as found. */
    constructor (saved: Store)
      ensures currentTab == None && startTime == None
      ensures lastVisitedUrls == map[] && store == saved
    {
      currentTab := None;
      startTime := None;
      lastVisitedUrls := map[];
      store := saved;
    }

    /** An interval is open: `currentTab` is set and `startTime` is truthy. */
    predicate Open()
      reads this
    {
      currentTab.Some? && startTime.Some? && startTime.value != 0
    }

    /** The store as `updateTime` at time now leaves it. */
    function Flushing(now: int, today: string): Store
      reads this
    {
      if Open() then
        FlushStore(store, today, StripTrailingSlashes(currentTab.value.url), now - startTime.value)
      else
        store
    }

    /**
     * `updateTime`: with an interval open, adds now - startTime to the current
     * URL's entry under today and rolls startTime forward to now; otherwise
     * changes nothing.
     */
    method UpdateTime(now: int, today: string)
      modifies this
      ensures !old(Open()) ==> unchanged(this)
      ensures store == old(Flushing(now, today))
      ensures startTime == if old(Open()) then Some(now) else old(startTime)
      ensures currentTab == old(currentTab) && lastVisitedUrls == old(lastVisitedUrls)
    {
      if currentTab.None? || startTime.None? || startTime.value == 0 {
        return;
      }
      var timeSpent := now - startTime.value;
      var dayData := DayOf(store, today);
      var formattedUrl := StripTrailingSlashes(currentTab.value.url);
      var entry := Lookup(dayData, formattedUrl);
      if Falsy(entry) || entry.value.Legacy? {
        var time := if entry.Some? && entry.value.Legacy? then entry.value.value else 0;
        dayData := dayData[formattedUrl := Record(Stat(time, 1))];
      }
      var stat := dayData[formattedUrl].stat;
      dayData := dayData[formattedUrl := Record(stat.(time := stat.time + timeSpent))];
      assert dayData == DayOf(store, today)[formattedUrl := Flushed(entry, timeSpent)];
      store := store[today := dayData];
      startTime := Some(now);
    }

    /** `isNewVisit`: classifies the observation and updates the classifier's map. */
    method IsNewVisit(url: string, tabId: nat) returns (isNew: bool)
      modifies this
      ensures Verdict(isNew, lastVisitedUrls) == Classify(old(lastVisitedUrls), url, tabId)
      ensures currentTab == old(currentTab) && startTime == old(startTime) && store == old(store)
    {
      var formattedUrl := StripTrailingSlashes(url);
      var key := PairKey(formattedUrl, tabId);
      if key !in lastVisitedUrls {
        lastVisitedUrls := lastVisitedUrls[key := Seen];
        return true;
      }
      var lastUrl := Get(lastVisitedUrls, CurrentKey(tabId));
      if NavigatedAway(lastUrl, formattedUrl) {
        lastVisitedUrls := lastVisitedUrls[key := Seen];
        lastVisitedUrls := lastVisitedUrls[CurrentKey(tabId) := Current(formattedUrl)];
        return true;
      }
      return false;
    }

    /** `incrementVisitCount`: a new visit is counted under today; any other leaves storage alone. */
    method IncrementVisitCount(url: string, tabId: nat, today: string)
      modifies this
      ensures var v := Classify(old(lastVisitedUrls), url, tabId);
        lastVisitedUrls == v.marks &&
        store == if v.isNew then BumpStore(old(store), today, StripTrailingSlashes(url)) else old(store)
      ensures currentTab == old(currentTab) && startTime == old(startTime)
    {
      var isNew := IsNewVisit(url, tabId);
      if !isNew {
        return;
      }
      var dayData := DayOf(store, today);
      var formattedUrl := StripTrailingSlashes(url);
      var entry := Lookup(dayData, formattedUrl);
      if Falsy(entry) {
        dayData := dayData[formattedUrl := Record(Stat(0, 1))];
      } else {
        if entry.value.Legacy? {
          dayData := dayData[formattedUrl := Record(Stat(entry.value.value, 1))];
        }
        var stat := dayData[formattedUrl].stat;
        dayData := dayData[formattedUrl := Record(stat.(visits := stat.visits + 1))];
      }
      assert dayData == DayOf(store, today)[formattedUrl := Bumped(entry)];
      store := store[today := dayData];
    }

    /**
     * A run of the periodic `setInterval(updateTime, 1000)` ticks at the given
     * (non-zero) times while an interval is open: the store is the series of
     * flushes, each rolling the start forward to its own time.
     */
    method RunTicks(ticks: seq<int>, today: string)
      requires Open()
      requires forall i :: 0 <= i < |ticks| ==> ticks[i] != 0
      modifies this
      ensures store == FlushSeries(old(store), today, StripTrailingSlashes(old(currentTab).value.url),
                                   old(startTime).value, ticks)
      ensures startTime == if ticks == [] then old(startTime) else Some(ticks[|ticks| - 1])
      ensures currentTab == old(currentTab) && lastVisitedUrls == old(lastVisitedUrls)
      decreases |ticks|
    {
      if ticks != [] {
        UpdateTime(ticks[0], today);
        RunTicks(ticks[1..], today);
      }
    }

    /** The midnight reset: `lastVisitedUrls.clear()`. */
    method ResetVisitedUrls()
      modifies this
      ensures lastVisitedUrls == map[]
      ensures currentTab == old(currentTab) && startTime == old(startTime) && store == old(store)
    {
      lastVisitedUrls := map[];
    }

    /**
     * The tab-activated handler: flushes the outgoing tab at flushAt, makes
     * tab current with its interval starting at resumeAt, and records its URL
     * as the tab's current one; it never counts a visit.
     */
    method OnActivated(tabId: nat, tab: Tab, flushAt: int, resumeAt: int, today: string)
      modifies this
      ensures store == old(Flushing(flushAt, today))
      ensures currentTab == Some(tab) && startTime == Some(resumeAt)
      ensures lastVisitedUrls == old(lastVisitedUrls)[CurrentKey(tabId) := Current(StripTrailingSlashes(tab.url))]
    {
      UpdateTime(flushAt, today);
      currentTab := Some(tab);
      startTime := Some(resumeAt);
      var formattedUrl := StripTrailingSlashes(tab.url);
      lastVisitedUrls := lastVisitedUrls[CurrentKey(tabId) := Current(formattedUrl)];
    }

    /**
     * The tab-updated handler: only for a completed load in the active tab. It
     * flushes at flushAt, classifies and maybe counts the visit, then makes the
     * tab current with its interval starting at resumeAt.
     */
    method OnUpdated(tabId: nat, status: Option<string>, tab: Tab, flushAt: int, resumeAt: int, today: string)
      modifies this
      ensures !(status == Some("complete") && tab.active) ==> unchanged(this)
      ensures status == Some("complete") && tab.active ==>
        var v := Classify(old(lastVisitedUrls), tab.url, tabId);
        var flushed := old(Flushing(flushAt, today));
        store == (if v.isNew then BumpStore(flushed, today, StripTrailingSlashes(tab.url)) else flushed) &&
        lastVisitedUrls == v.marks &&
        currentTab == Some(tab) && startTime == Some(resumeAt)
    {
      if status == Some("complete") && tab.active {
        UpdateTime(flushAt, today);
        IncrementVisitCount(tab.url, tabId, today);
        currentTab := Some(tab);
        startTime := Some(resumeAt);
      }
    }
  }
}
