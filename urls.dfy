/**
 * The storage key of a URL (the URL with every trailing '/' removed, the
 * effect of `url.replace(/\/+$/, '')`) and the two kinds of key of the
 * visit-classifier map: "<url>-<tabId>" and "current-<tabId>".
 */
module Urls {
  import opened Decimal

  /** s with all trailing slashes removed. */
  function StripTrailingSlashes(s: string): (r: string)
    ensures |r| <= |s| && r == s[..|r|]
    ensures forall i :: |r| <= i < |s| ==> s[i] == '/'
    ensures r == [] || r[|r| - 1] != '/'
    decreases |s|
  {
    if s != [] && s[|s| - 1] == '/' then StripTrailingSlashes(s[..|s| - 1]) else s
  }

  /** The three properties above pin the result down: it is the only such prefix. */
  lemma StripTrailingSlashesUnique(s: string, r: string)
    requires |r| <= |s| && r == s[..|r|]
    requires forall i :: |r| <= i < |s| ==> s[i] == '/'
    requires r == [] || r[|r| - 1] != '/'
    ensures r == StripTrailingSlashes(s)
  {
    var t := StripTrailingSlashes(s);
    NoSlashEndBeforeSlashes(s, |r|, |t|);
    NoSlashEndBeforeSlashes(s, |t|, |r|);
  }

  /** A prefix of length a that does not end in '/' cannot reach into a run of slashes from b on. */
  lemma NoSlashEndBeforeSlashes(s: string, a: nat, b: nat)
    requires a <= |s| && b <= |s|
    requires a == 0 || s[a - 1] != '/'
    requires forall i :: b <= i < |s| ==> s[i] == '/'
    ensures a <= b
  {
  }

  lemma StripTrailingSlashesIdempotent(s: string)
    ensures StripTrailingSlashes(StripTrailingSlashes(s)) == StripTrailingSlashes(s)
  {
  }

  function Slashes(k: nat): string
  {
    seq(k, _ => '/')
  }

  /** URLs that differ only in trailing slashes get the same key. */
  lemma StripIgnoresTrailingSlashes(s: string, k: nat)
    ensures StripTrailingSlashes(s + Slashes(k)) == StripTrailingSlashes(s)
  {
    var t, r := s + Slashes(k), StripTrailingSlashes(s);
    assert r == t[..|r|];
    StripTrailingSlashesUnique(t, r);
  }

  /** `${formattedUrl}-${tabId}`: the URL has been seen in the tab. */
  function PairKey(url: string, tabId: nat): string {
    url + "-" + NatToString(tabId)
  }

  /** `current-${tabId}`: the URL the tab last showed. */
  function CurrentKey(tabId: nat): string {
    "current-" + NatToString(tabId)
  }

  /** Index of the last '-' in s, or -1. */
  function LastDash(s: string): (r: int)
    ensures -1 <= r < |s|
    ensures r >= 0 ==> s[r] == '-'
    decreases |s|
  {
    if s == [] then -1 else if s[|s| - 1] == '-' then |s| - 1 else LastDash(s[..|s| - 1])
  }

  lemma {:induction false} LastDashSkipsDigits(p: string, d: string)
    requires AllDigits(d)
    ensures LastDash(p + d) == LastDash(p)
    decreases |d|
  {
    if d != [] {
      var s := p + d;
      assert s[|s| - 1] == d[|d| - 1];
      assert s[..|s| - 1] == p + d[..|d| - 1];
      LastDashSkipsDigits(p, d[..|d| - 1]);
    } else {
      assert p + d == p;
    }
  }

  /** The dash of a pair key is its last one: a tab id has no dash. */
  lemma PairKeyDash(url: string, tabId: nat)
    ensures LastDash(PairKey(url, tabId)) == |url|
  {
    assert PairKey(url, tabId) == (url + "-") + NatToString(tabId);
    LastDashSkipsDigits(url + "-", NatToString(tabId));
  }

  /** A pair key determines its URL and its tab. */
  lemma PairKeyInjective(u1: string, t1: nat, u2: string, t2: nat)
    requires PairKey(u1, t1) == PairKey(u2, t2)
    ensures u1 == u2 && t1 == t2
  {
    var k := PairKey(u1, t1);
    PairKeyDash(u1, t1);
    PairKeyDash(u2, t2);
    assert u1 == k[..|u1|] == u2;
    assert NatToString(t1) == k[|u1| + 1..] == NatToString(t2);
    NatToStringInjective(t1, t2);
  }

  /**
   * The two kinds of key share one map: a pair key coincides with a
   * current-URL key exactly when the URL is the string "current" in the same tab.
   */
  lemma PairKeyMeetsCurrentKey(url: string, t1: nat, t2: nat)
    ensures PairKey(url, t1) == CurrentKey(t2) <==> url == "current" && t1 == t2
  {
    assert CurrentKey(t2) == PairKey("current", t2);
    if PairKey(url, t1) == CurrentKey(t2) {
      PairKeyInjective(url, t1, "current", t2);
    }
  }
}
