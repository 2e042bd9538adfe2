/**
 * The day buckets kept in the extension's local storage: date key -> URL key ->
 * entry, where an entry is either a legacy bare number of milliseconds or a
 * `{time, visits}` record.
 */
module Entries {
  import opened Wrappers

  /** A `{time, visits}` record: milliseconds spent and visits counted. */
  datatype Stat = Stat(time: int, visits: int)

  datatype Entry =
    | Legacy(value: int)   // an entry written by an older version: just the time
    | Record(stat: Stat)

  type Day = map<string, Entry>
  type Store = map<string, Day>

  /** `data[dateKey] || {}` */
  function DayOf(store: Store, date: string): Day {
    if date in store then store[date] else map[]
  }

  /** `dayData[url]`, undefined when the URL has no entry. */
  function Lookup(day: Day, url: string): Option<Entry> {
    if url in day then Some(day[url]) else None
  }

  /** The entry stored for url on date, if any. */
  function At(store: Store, date: string, url: string): Option<Entry> {
    Lookup(DayOf(store, date), url)
  }

  /** `!dayData[url]`: an absent entry, or the legacy number 0. */
  predicate Falsy(e: Option<Entry>) {
    e == None || e == Some(Legacy(0))
  }
}
