/**
 * Durations in milliseconds shown as whole minutes and seconds, and a reader of
 * the two shown forms ("<s>s" and "<m>m <s>s") against which the formatters are
 * specified.
 */
module Duration {
  import opened Wrappers
  import opened Decimal

  const MsPerMinute: nat := 60000
  const MsPerSecond: nat := 1000

  /** m whole minutes plus s whole seconds (s below 60) is ms rounded down to a second. */
  predicate Splits(ms: nat, m: nat, s: nat) {
    s < 60 &&
    m * MsPerMinute + s * MsPerSecond <= ms < m * MsPerMinute + (s + 1) * MsPerSecond
  }

  /** Floor division by a minute and by a second gives the split. */
  lemma FloorSplits(ms: nat)
    ensures Splits(ms, ms / MsPerMinute, (ms % MsPerMinute) / MsPerSecond)
  {
    var m, rem := ms / MsPerMinute, ms % MsPerMinute;
    assert ms == m * MsPerMinute + rem && rem < MsPerMinute;
    var s, sub := rem / MsPerSecond, rem % MsPerSecond;
    assert rem == s * MsPerSecond + sub && sub < MsPerSecond;
  }

  /** A duration has only one split. */
  lemma SplitsUnique(ms: nat, m1: nat, s1: nat, m2: nat, s2: nat)
    requires Splits(ms, m1, s1) && Splits(ms, m2, s2)
    ensures m1 == m2 && s1 == s2
  {
  }

  /** The two shapes a formatted duration takes. */
  datatype Shown = Seconds(s: nat) | MinutesSeconds(m: nat, s: nat)

  /** The text of a shown duration. */
  function ShowText(x: Shown): string {
    match x
    case Seconds(s) => NatToString(s) + "s"
    case MinutesSeconds(m, s) => NatToString(m) + "m " + NatToString(s) + "s"
  }

  /** Reads "<digits>s". */
  function ReadSecondsPart(text: string): Option<nat> {
    var sp := SpanDigits(text);
    if sp.0 != [] && sp.1 == "s" then Some(ParseNat(sp.0)) else None
  }

  /** Reads "m <digits>s", what follows the minutes. */
  function ReadMinutesTail(text: string): Option<nat> {
    if |text| >= 2 && text[0] == 'm' && text[1] == ' ' then ReadSecondsPart(text[2..]) else None
  }

  /** Reads "<digits>s" or "<digits>m <digits>s", leading zeros allowed. */
  function ReadShown(text: string): Option<Shown> {
    var sp := SpanDigits(text);
    if sp.0 == [] then None
    else if sp.1 == "s" then Some(Seconds(ParseNat(sp.0)))
    else
      match ReadMinutesTail(sp.1)
      case Some(sec) => Some(MinutesSeconds(ParseNat(sp.0), sec))
      case None => None
  }

  /**
   * Reads a shown duration, accepting only its canonical spelling (no leading
   * zeros), so that each duration has exactly one accepted text.
   */
  function ParseShown(text: string): (r: Option<Shown>)
    ensures r.Some? ==> text == ShowText(r.value)
  {
    var x := ReadShown(text);
    if x.Some? && ShowText(x.value) == text then x else None
  }

  lemma ReadSecondsPartOf(s: nat)
    ensures ReadSecondsPart(NatToString(s) + "s") == Some(s)
  {
    SpanDigitsOf(NatToString(s), "s");
    ParseNatToString(s);
  }

  lemma ParseShownSeconds(s: nat)
    ensures ParseShown(NatToString(s) + "s") == Some(Seconds(s))
  {
    SpanDigitsOf(NatToString(s), "s");
    ParseNatToString(s);
  }

  lemma ReadMinutesTailOf(s: nat)
    ensures ReadMinutesTail("m " + NatToString(s) + "s") == Some(s)
  {
    var tail := "m " + NatToString(s) + "s";
    assert tail[2..] == NatToString(s) + "s";
    ReadSecondsPartOf(s);
  }

  lemma ReadShownMinutesSeconds(m: nat, s: nat)
    ensures ReadShown(NatToString(m) + "m " + NatToString(s) + "s") == Some(MinutesSeconds(m, s))
  {
    var dm, tail := NatToString(m), "m " + NatToString(s) + "s";
    var text := NatToString(m) + "m " + NatToString(s) + "s";
    assert text == dm + tail;
    assert tail[0] == 'm';
    SpanDigitsOf(dm, tail);
    ReadMinutesTailOf(s);
    ParseNatToString(m);
  }

  lemma ParseShownMinutesSeconds(m: nat, s: nat)
    ensures ParseShown(NatToString(m) + "m " + NatToString(s) + "s") == Some(MinutesSeconds(m, s))
  {
    ReadShownMinutesSeconds(m, s);
  }
}
