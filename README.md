# Web time tracker: a Dafny model of its bookkeeping

The extension records, per calendar day and per URL, how long the active tab
showed that URL and how many visits it received, and lists the day in a popup.
This project models that bookkeeping:

- **Background script** (`background.js`): a `Tracker` class holding the
  script's module state (`currentTab`, `startTime`, the `lastVisitedUrls` map)
  and the extension's local storage as a map from date key to day bucket. Its
  methods are `updateTime` (flush the open interval into the current URL and
  roll `startTime` forward), `isNewVisit`, `incrementVisitCount`, the midnight
  `clear()` and the bodies of the tab-activated and tab-updated handlers. Each
  method is proved against a pure function (`FlushStore`, `BumpStore`,
  `Classify`) whose own properties are proved as lemmas.
- **Popup script** (`popup.js`): `formatTime`, `formatUrl` (the URL parser is a
  parameter), `normalizeData`, and the day's rows sorted by descending time.
- **Ledger**: the background's writes read back through the popup's
  `normalizeData`: a flush adds exactly the elapsed time, a counted visit adds
  one, and a run of flushes at t1..tn of an interval opened at t0 adds exactly
  tn - t0.

Stored entries are either a legacy bare number (the time) or a
`{time, visits}` record (`Entries.Entry`). The storage key of a URL is the URL
with every trailing `/` removed. The classifier's map holds two kinds of key,
`"<url>-<tabId>"` and `"current-<tabId>"`. A pair key determines its URL and
tab (`Urls.PairKeyInjective`). The two kinds collide exactly for the URL string
`"current"` in the same tab (`Urls.PairKeyMeetsCurrentKey`), and the model keeps
that sharing.

JavaScript truthiness is kept where the code relies on it. A `startTime` of 0
counts as no interval. A legacy entry of 0 counts as absent in
`incrementVisitCount`, so it becomes `{time: 0, visits: 1}`, where any other
legacy number n becomes `{time: n, visits: 2}`. An empty current URL counts as
unset in `isNewVisit`.

Behaviour of the code a reader might not expect:
- Switching to a tab never counts a visit (`Tracker.OnActivated`).
- Take a tab whose current URL is x, where neither x nor y has been seen in
  that tab since the last reset. If it then completes loads of x, y and x, the
  second x counts as no visit. The first-sighting branch of `isNewVisit` does
  not update `current-<tabId>`, so it still says x (`ClassifyMissesReturn`).
- Two back-to-back identical "complete" events can both count. The second one
  counts when the first was the pair's first sighting and the tab's current URL
  is set, non-empty and differs. A third never counts (`ClassifyRepeats`).
- The background script's storage key is the trailing-slash strip only: there
  is no `www.` stripping and no query or fragment removal.
- No title is stored.

## Model

| member | source | states |
|---|---|---|
| `Decimal.NatToString` | background.js:54 | a tab id or a minute/second count is spelled as digits only, with no leading zero |
| `Decimal.ParseNatToString` | background.js:54 | reading the spelling back gives the number, so the spelling is canonical decimal |
| `Decimal.NatToStringInjective` | background.js:54 | distinct tab ids have distinct spellings |
| `Duration.FloorSplits` | popup.js:8-9 | `floor(ms/60000)` and `floor((ms%60000)/1000)` are whole minutes and seconds: seconds in 0..59 and m*60000 + s*1000 <= ms < m*60000 + (s+1)*1000 |
| `Duration.SplitsUnique` | popup.js:8-9 | those bounds determine the minutes and seconds |
| `Urls.StripTrailingSlashes` | background.js:31 | the key is a prefix of the URL, only `/` was removed, and it does not end in `/` |
| `Urls.StripTrailingSlashesUnique` | background.js:31 | any prefix with those three properties is the key (full characterisation of `replace(/\/+$/, '')`) |
| `Urls.StripTrailingSlashesIdempotent` | background.js:53 | stripping twice equals stripping once |
| `Urls.StripIgnoresTrailingSlashes` | background.js:84 | URLs that differ only in trailing slashes get the same key |
| `Urls.PairKey` | background.js:54 | the key `"<url>-<tabId>"`; no contract of its own, its properties are `PairKeyInjective` and `PairKeyMeetsCurrentKey` |
| `Urls.CurrentKey` | background.js:63 | the key `"current-<tabId>"`; no contract of its own, see `PairKeyMeetsCurrentKey` |
| `Urls.PairKeyInjective` | background.js:54 | `"<url>-<tabId>"` determines both the URL and the tab |
| `Urls.PairKeyMeetsCurrentKey` | background.js:54-63 | a pair key equals `"current-<tabId>"` exactly when the URL is `"current"` and the tabs agree |
| `Background.FormatTimeLong` | background.js:7-11 | the background `formatTime`; no contract of its own, its text is fixed by `FormatTimeLongShows` |
| `Background.FormatTimeLongShows` | background.js:7-11 | the text is exactly `"<m>m <s>s"` in canonical digits, with the whole minutes and seconds of ms, and reads back as them |
| `Background.Flushed` | background.js:34-42 | after `updateTime` the URL's entry is a `{time, visits}` record, whatever shape it had |
| `Background.FlushStore` | background.js:27-45 | the flushed entry is written under today for the URL key; today's bucket exists and holds that URL; every other URL and date keeps its entry |
| `Background.Bumped` | background.js:87-101 | after a counted visit the URL's entry is a `{time, visits}` record |
| `Background.BumpStore` | background.js:80-104 | the bumped entry is written under today for the URL key; every other URL and date keeps its entry |
| `Background.Classify` | background.js:52-71 | `isNewVisit` as a function: the map never loses a key, only the pair key and `current-<tabId>` can change, a counted visit leaves the pair recorded, and an uncounted one leaves the map unchanged; the decision is stated by `ClassifyFirstSight` and `ClassifySeenBefore` |
| `Background.ClassifyFirstSight` | background.js:56-60 | a pair never seen counts as a visit and only records `"<url>-<tabId>"` |
| `Background.ClassifySeenBefore` | background.js:62-70 | a pair seen before counts exactly when `current-<tabId>` is set (truthy) and differs from the URL; it then sets it to the URL; otherwise the map is unchanged |
| `Background.ClassifyRepeats` | background.js:52-70 | of three identical back-to-back observations the third never counts, and the second counts only after a first sighting |
| `Background.ClassifyAfterReset` | background.js:117 | the first observation of any pair after the midnight `clear()` counts |
| `Background.ClassifyMissesReturn` | background.js:57-70 | when neither x nor y has been seen in the tab since the last reset, activation on x followed by completed loads of x, y, x counts x and y but not the return to x |
| `Background.Tracker.constructor` | background.js:2-4 | the script starts with no tab, no interval and an empty classifier map |
| `Background.Tracker.Open` | background.js:20 | the guard `currentTab && startTime` (a start of 0 is falsy); no contract of its own, used by `UpdateTime` |
| `Background.Tracker.Flushing` | background.js:20-45 | the store `updateTime` leaves; no contract of its own: it is `FlushStore` when `Open()`, so `FlushStore`, `FlushAddsElapsed` and `FlushSeriesTotal` carry its properties |
| `Background.Tracker.UpdateTime` | background.js:19-49 | with no tab or a falsy start nothing changes; otherwise the store becomes `FlushStore` with now - startTime and startTime becomes now, tab and map unchanged |
| `Background.Tracker.IsNewVisit` | background.js:52-71 | result and new map are those of `Classify`; store, tab and start unchanged |
| `Background.Tracker.IncrementVisitCount` | background.js:74-105 | a visit that is not new leaves the store alone; a new one makes the store `BumpStore` under today |
| `Background.Tracker.RunTicks` | background.js:152 | a run of periodic ticks at non-zero times during an open interval leaves the store equal to `FlushSeries` of those times, with the start rolled to the last tick; with `Ledger.FlushSeriesTotal` the tracker's URL gains exactly tn - t0 |
| `Background.FlushSeries` | background.js:19-49 | the flushes of one open interval at t1..tn, each rolling the start forward; no contract of its own, its total is `Ledger.FlushSeriesTotal` |
| `Background.Tracker.ResetVisitedUrls` | background.js:116-117 | the classifier map becomes empty and nothing else changes |
| `Background.Tracker.OnActivated` | background.js:126-139 | flushes the outgoing interval first, then makes the tab current with a fresh start and records `current-<tabId>`; it counts no visit |
| `Background.Tracker.OnUpdated` | background.js:142-149 | acts only on a completed load in the active tab: flush, classify and maybe count, then make the tab current with a fresh start |
| `Popup.FormatTime` | popup.js:2-15 | the popup `formatTime`; no contract of its own, its text is fixed by `FormatTimeShows` |
| `Popup.FormatTimeShows` | popup.js:2-15 | exactly `"0s"` for 0; below a minute exactly `"<s>s"`; otherwise exactly `"<m>m <s>s"`, in canonical digits, with the whole minutes and seconds of ms, and the text reads back as them |
| `Popup.FormatUrl` | popup.js:18-25 | the result never ends in `/`; on the fallback it is the input with its trailing slashes removed, a prefix of the input |
| `Popup.NormalizeData` | popup.js:28-41 | `normalizeData`: a number n reads as {n, 1}, an absent value as {0, 0}, a record as its fields; no contract of its own, its properties are `NormalizeDataIdempotent`, `Ledger.FlushAddsElapsed` and `Ledger.BumpAddsVisit` |
| `Popup.NormalizeDataIdempotent` | popup.js:28-41 | normalizing a normalized record returns it |
| `Popup.NormalizeDay` | popup.js:71-73 | the normalized day has the same URLs as the bucket |
| `Popup.NormalizeRowsLists` | popup.js:71-73 | normalizing a listing of the bucket lists the normalized bucket |
| `Popup.PrependDescending` | popup.js:76-77 | a row with no smaller time may go in front of a descending list |
| `Popup.Insert` | popup.js:76-77 | inserting keeps the list descending and adds exactly that row |
| `Popup.SortByTime` | popup.js:76-77 | the sorted rows have non-increasing time and are a permutation of the input |
| `Popup.SortedRows` | popup.js:76-77 | `sortedUrls`: descending by time and a permutation of the normalized rows |
| `Popup.PermutationLists` | popup.js:76-77 | a permutation of a listing of the bucket still lists the bucket |
| `Popup.SortedRowsListDay` | popup.js:71-77 | the popup's list of a day is every URL of the bucket with its normalized record, in non-increasing time |
| `Ledger.FlushAddsElapsed` | background.js:34-42 | seen through `normalizeData`, a flush adds exactly the elapsed time and no visit; a created entry starts at one visit |
| `Ledger.BumpAddsVisit` | background.js:87-101 | seen through `normalizeData`, a counted visit keeps the time and adds one visit, except on a legacy 0 entry, which stays at one |
| `Ledger.FlushSeriesTotal` | background.js:19-49 | flushes at t1..tn of an interval opened at t0 add exactly tn - t0 to the URL's time, and nothing to any other URL or date |

## Left out

- Background.Tracker.RunTicks: requires every tick time to be non-zero, as `Date.now()` always is. A zero tick would close the interval, because a `startTime` of 0 is falsy. A run also lies within one date: every tick flushes under the same `today`, while each `updateTime` reads its own date (background.js:24). A run across midnight is a sequence of `UpdateTime` calls.

- Local storage is an in-memory map and each handler runs as one atomic step. The interleavings at the `await` points are concurrency and are not modelled, and neither are the lost updates they allow. A failed storage read or write is not modelled either.
- `chrome.tabs.get`, the listener registrations and the timers (`setInterval`, `setTimeout`) are host APIs. The tab that `chrome.tabs.get` returns is a parameter. A periodic tick is a call of `Tracker.UpdateTime`, and a run of ticks is `Tracker.RunTicks`. The midnight timer is a call of `Tracker.ResetVisitedUrls`.
- `Date.now()`, `toISOString()` date keys and the time-until-midnight arithmetic are host clock and calendar code. Timestamps and the date key are parameters. A handler takes two timestamps: the flush's clock read and the later `startTime = Date.now()`. It takes one date key, although `updateTime` and `incrementVisitCount` each read the date.
- The `new URL(...)` parse in `Popup.FormatUrl` is a library parser, so its result is a parameter.
- The DOM code of the popup is UI and is not modelled: `displayTimeData`'s element building, `updateTimeValues`, the date picker and the popup's refresh timer.
- Popup.FormatTime: takes a natural number of milliseconds. The NaN branch and negative durations, where JavaScript's `%` truncates, are not modelled.
- Background.FormatTimeLong: takes a natural number of milliseconds too. JavaScript gives "-1m -1s" for -500, and that case is not modelled. The script never calls this function.
- A tab without a `url` is not modelled: `Tab.url` is always a string. In the code, `currentTab.url.replace` and `tab.url.replace` (background.js:31, 137) throw for such a tab.
- A rejected `chrome.tabs.get` (background.js:131) is not modelled: the `tab` parameter always exists. In the code it ends `onActivated` after `updateTime` has rolled `startTime` forward, so time keeps going to the old tab.
- Decimal.NatToString: JavaScript's exponent notation for numbers of 1e21 or more is not modelled.
- Integers are unbounded. JavaScript numbers are doubles, exact for integers below 2^53, which covers millisecond timestamps and visit counts.
- Stored values are either a number or a record with integer `time` and `visits`. The model leaves out records that lack a field (JavaScript would add to `undefined`) and other JSON values.
- URL keys are treated as plain map keys. JavaScript's object prototype names (such as `__proto__`) behave differently and are not modelled.
- Popup.SortByTime: proves the order and the permutation. It does not prove stability among equal times, although JavaScript's sort is stable.
