/**
 * The popup's pure helpers: duration text, display form of a URL, coercion of
 * stored entries to `{time, visits}`, and the list of a day's URLs by
 * descending time.
 */
module Popup {
  import opened Wrappers
  import opened Decimal
  import opened Duration
  import opened Urls
  import opened Entries

  /** The popup's `formatTime`: "0s", "<s>s" below a minute, "<m>m <s>s" from a minute on. */
  function FormatTime(ms: nat): string {
    if ms == 0 then "0s"
    else
      var minutes := ms / MsPerMinute;
      var seconds := (ms % MsPerMinute) / MsPerSecond;
      if minutes == 0 then NatToString(seconds) + "s"
      else NatToString(minutes) + "m " + NatToString(seconds) + "s"
  }

  /**
   * The text shows the duration's whole minutes and seconds: seconds alone
   * below a minute (including "0s" for zero), minutes and seconds otherwise.
   */
  lemma FormatTimeShows(ms: nat, m: nat, s: nat)
    requires Splits(ms, m, s)
    ensures ParseShown(FormatTime(ms)) == Some(if ms < MsPerMinute then Seconds(s) else MinutesSeconds(m, s))
    ensures FormatTime(ms) == ShowText(if ms < MsPerMinute then Seconds(s) else MinutesSeconds(m, s))
    ensures ms == 0 ==> FormatTime(ms) == "0s"
  {
    FloorSplits(ms);
    SplitsUnique(ms, m, s, ms / MsPerMinute, (ms % MsPerMinute) / MsPerSecond);
    if ms == 0 {
      assert NatToString(0) + "s" == "0s";
    }
    if ms < MsPerMinute {
      ParseShownSeconds(s);
    } else {
      ParseShownMinutesSeconds(m, s);
    }
  }

  /** What `new URL(url)` yields when it parses. */
  datatype ParsedUrl = ParsedUrl(hostname: string, pathname: string)

  /**
   * `formatUrl`: host and path of a parsed URL, or the raw string when it does
   * not parse, with trailing slashes removed either way. The parse itself is
   * the parameter.
   */
  function FormatUrl(url: string, parsed: Option<ParsedUrl>): (r: string)
    ensures r == [] || r[|r| - 1] != '/'
    ensures parsed.None? ==>
      |r| <= |url| && r == url[..|r|] && forall i :: |r| <= i < |url| ==> url[i] == '/'
  {
    match parsed
    case Some(p) => StripTrailingSlashes(p.hostname + p.pathname)
    case None => StripTrailingSlashes(url)
  }

  /**
   * `normalizeData`: a legacy number n reads as {time: n, visits: 1}, an
   * absent entry as {time: 0, visits: 0}, a record as its own fields.
   */
  function NormalizeData(data: Option<Entry>): Stat {
    match data
    case Some(Legacy(n)) => Stat(n, 1)
    case Some(Record(s)) => Stat(s.time, s.visits)
    case None => Stat(0, 0)
  }

  /** Normalizing a normalized record gives it back. */
  lemma NormalizeDataIdempotent(data: Option<Entry>)
    ensures NormalizeData(Some(Record(NormalizeData(data)))) == NormalizeData(data)
  {
  }

  /** The normalized day: every URL of the bucket with its coerced record. */
  function NormalizeDay(day: Day): (r: map<string, Stat>)
    ensures r.Keys == day.Keys
  {
    map u | u in day :: NormalizeData(Some(day[u]))
  }

  /** `Object.entries(rawDayData).map(([url, data]) => [url, normalizeData(data)])` */
  function NormalizeRows(rows: seq<(string, Entry)>): seq<(string, Stat)>
  {
    seq(|rows|, i requires 0 <= i < |rows| => (rows[i].0, NormalizeData(Some(rows[i].1))))
  }

  /** rows lists exactly the entries of day. */
  predicate Lists<V(==)>(rows: seq<(string, V)>, day: map<string, V>) {
    (forall i :: 0 <= i < |rows| ==> rows[i].0 in day && rows[i].1 == day[rows[i].0]) &&
    (forall u :: u in day ==> (u, day[u]) in rows)
  }

  predicate Descending(rows: seq<(string, Stat)>) {
    forall i, j :: 0 <= i < j < |rows| ==> rows[i].1.time >= rows[j].1.time
  }

  /** A row with no smaller time than the head of a descending list may go in front of it. */
  lemma PrependDescending(row: (string, Stat), sorted: seq<(string, Stat)>)
    requires Descending(sorted)
    requires sorted == [] || sorted[0].1.time <= row.1.time
    ensures Descending([row] + sorted)
  {
    var r := [row] + sorted;
    forall i, j | 0 <= i < j < |r|
      ensures r[i].1.time >= r[j].1.time
    {
      if i == 0 {
        assert r[j] == sorted[j - 1];
      } else {
        assert r[i] == sorted[i - 1] && r[j] == sorted[j - 1];
      }
    }
  }

  /** Places row before the first row with no greater time. */
  function Insert(row: (string, Stat), sorted: seq<(string, Stat)>): (r: seq<(string, Stat)>)
    requires Descending(sorted)
    ensures Descending(r)
    ensures multiset(r) == multiset(sorted) + multiset{row}
    ensures r[0] == row || (sorted != [] && r[0] == sorted[0])
    decreases |sorted|
  {
    if sorted == [] || sorted[0].1.time <= row.1.time then
      PrependDescending(row, sorted);
      [row] + sorted
    else
      var rest := Insert(row, sorted[1..]);
      assert rest[0].1.time <= sorted[0].1.time;
      PrependDescending(sorted[0], rest);
      assert sorted == [sorted[0]] + sorted[1..];
      assert multiset([sorted[0]] + rest) == multiset{sorted[0]} + multiset(rest);
      [sorted[0]] + rest
  }

  /** `.sort(([, a], [, b]) => b.time - a.time)`: by descending time, a permutation of its input. */
  function SortByTime(rows: seq<(string, Stat)>): (r: seq<(string, Stat)>)
    ensures Descending(r)
    ensures multiset(r) == multiset(rows)
    decreases |rows|
  {
    if rows == [] then []
    else
      assert rows == [rows[0]] + rows[1..];
      Insert(rows[0], SortByTime(rows[1..]))
  }

  /** `sortedUrls` in `displayTimeData`. */
  function SortedRows(rows: seq<(string, Entry)>): (r: seq<(string, Stat)>)
    ensures Descending(r)
    ensures multiset(r) == multiset(NormalizeRows(rows))
  {
    SortByTime(NormalizeRows(rows))
  }

  /** Normalizing the listed entries of a day lists the normalized day. */
  lemma NormalizeRowsLists(rows: seq<(string, Entry)>, day: Day)
    requires Lists(rows, day)
    ensures Lists(NormalizeRows(rows), NormalizeDay(day))
  {
    var nr, nd := NormalizeRows(rows), NormalizeDay(day);
    forall u | u in nd
      ensures (u, nd[u]) in nr
    {
      assert (u, day[u]) in rows;
      var i :| 0 <= i < |rows| && rows[i] == (u, day[u]);
      assert nr[i] == (u, nd[u]);
    }
  }

  /** A permutation of a listing of a map is a listing of it. */
  lemma PermutationLists<V>(rows: seq<(string, V)>, perm: seq<(string, V)>, day: map<string, V>)
    requires Lists(rows, day)
    requires multiset(perm) == multiset(rows)
    ensures Lists(perm, day)
  {
    forall i | 0 <= i < |perm|
      ensures perm[i].0 in day && perm[i].1 == day[perm[i].0]
    {
      assert perm[i] in multiset(rows);
      var j :| 0 <= j < |rows| && rows[j] == perm[i];
    }
    forall u | u in day
      ensures (u, day[u]) in perm
    {
      assert (u, day[u]) in multiset(perm);
    }
  }

  /**
   * The popup's list for a day shows every URL of the bucket with its
   * normalized record, and nothing else, in non-increasing time.
   */
  lemma SortedRowsListDay(rows: seq<(string, Entry)>, day: Day)
    requires Lists(rows, day)
    ensures Lists(SortedRows(rows), NormalizeDay(day))
    ensures Descending(SortedRows(rows))
    ensures multiset(SortedRows(rows)) == multiset(NormalizeRows(rows))
  {
    NormalizeRowsLists(rows, day);
    PermutationLists(NormalizeRows(rows), SortedRows(rows), NormalizeDay(day));
  }
}
