/** Shared vocabulary of the stock monitor: optional values, log rows,
    JavaScript-style string operations and the clock helpers used by both
    the alert engine and the scan gate. */
module Common {

  datatype Option<+T> = None | Some(value: T)

  /** Severity of a system log row. */
  datatype Level = Info | Success | Warning

  /** One appended system log row (`systemLog.create`). */
  datatype LogEntry = LogEntry(message: string, level: Level)

  /** JavaScript `s || d` for a string setting: an empty (or absent) value
      falls back to the default. */
  function OrDefault(s: string, d: string): (r: string)
    ensures s != "" ==> r == s
    ensures s == "" ==> r == d
  {
    if s != "" then s else d
  }

  // ---------------------------------------------------------------------
  // Lexicographic string order, as JavaScript's `<` on strings.

  /** `a < b` on strings: the first differing character decides, and a
      proper prefix is smaller. */
  predicate LexLess(a: string, b: string)
    decreases |a|
  {
    if |b| == 0 then false
    else if |a| == 0 then true
    else if a[0] != b[0] then a[0] < b[0]
    else LexLess(a[1..], b[1..])
  }

  lemma {:induction false} LexLessIrreflexive(a: string)
    ensures !LexLess(a, a)
    decreases |a|
  {
    if |a| > 0 {
      LexLessIrreflexive(a[1..]);
    }
  }

  /** Exactly one of `a < b`, `a == b`, `b < a` holds. */
  lemma {:induction false} LexTrichotomy(a: string, b: string)
    ensures LexLess(a, b) || a == b || LexLess(b, a)
    ensures !(LexLess(a, b) && LexLess(b, a))
    ensures a == b ==> !LexLess(a, b)
    decreases |a|
  {
    if a == b {
      LexLessIrreflexive(a);
    } else if |a| > 0 && |b| > 0 && a[0] == b[0] {
      LexTrichotomy(a[1..], b[1..]);
    }
  }

  lemma {:induction false} LexLessTransitive(a: string, b: string, c: string)
    requires LexLess(a, b) && LexLess(b, c)
    ensures LexLess(a, c)
    decreases |a|
  {
    if |a| > 0 && a[0] == b[0] && b[0] == c[0] {
      LexLessTransitive(a[1..], b[1..], c[1..]);
    }
  }

  /** JavaScript `a <= b` on strings. */
  predicate LexLe(a: string, b: string)
  {
    !LexLess(b, a)
  }

  // ---------------------------------------------------------------------
  // "HH:MM" clock strings.

  /** Default working window of both the alert engine and the scan route. */
  const DEFAULT_WORK_START: string := "10:00"
  const DEFAULT_WORK_END: string := "19:00"

  predicate IsDigit(c: char) { '0' <= c <= '9' }

  function DigitValue(c: char): (d: nat)
    requires IsDigit(c)
    ensures d < 10
  {
    (c as int) - ('0' as int)
  }

  /** A two-digit "HH:MM" reading as produced by a 24-hour locale clock. */
  predicate WellFormedClock(s: string)
  {
    |s| == 5 && IsDigit(s[0]) && IsDigit(s[1]) && s[2] == ':' && IsDigit(s[3]) && IsDigit(s[4])
  }

  /** The four digits of an "HH:MM" reading read as the number HHMM. */
  function ClockCode(s: string): (n: nat)
    requires WellFormedClock(s)
    ensures n < 10000
  {
    DigitValue(s[0]) * 1000 + DigitValue(s[1]) * 100 + DigitValue(s[3]) * 10 + DigitValue(s[4])
  }

  lemma DigitOrder(c: char, d: char)
    requires IsDigit(c) && IsDigit(d)
    ensures c < d <==> DigitValue(c) < DigitValue(d)
    ensures c == d <==> DigitValue(c) == DigitValue(d)
  {
  }

  /** On well-formed "HH:MM" readings the lexicographic string order used
      by the working-hours checks is the numeric order of the time of day. */
  lemma {:induction false} ClockOrderIsNumeric(a: string, b: string)
    requires WellFormedClock(a) && WellFormedClock(b)
    ensures LexLess(a, b) <==> ClockCode(a) < ClockCode(b)
  {
    DigitOrder(a[0], b[0]);
    DigitOrder(a[1], b[1]);
    DigitOrder(a[3], b[3]);
    DigitOrder(a[4], b[4]);
    var a1, b1 := a[1..], b[1..];
    var a2, b2 := a[2..], b[2..];
    var a3, b3 := a[3..], b[3..];
    var a4, b4 := a[4..], b[4..];
    assert a1[1..] == a2 && b1[1..] == b2 && a2[1..] == a3 && b2[1..] == b3 && a3[1..] == a4 && b3[1..] == b4;
    assert LexLess(a, b) == if a[0] != b[0] then a[0] < b[0] else LexLess(a1, b1);
    assert LexLess(a1, b1) == if a[1] != b[1] then a[1] < b[1] else LexLess(a2, b2);
    assert LexLess(a2, b2) == LexLess(a3, b3);
    assert LexLess(a3, b3) == if a[3] != b[3] then a[3] < b[3] else LexLess(a4, b4);
    assert LexLess(a4, b4) == if a[4] != b[4] then a[4] < b[4] else LexLess(a4[1..], b4[1..]);
    assert |a4[1..]| == 0 && |b4[1..]| == 0;
  }

  /** The inclusive working-hours window `start <= now && now <= end`,
      compared as strings. */
  predicate InWindow(now: string, start: string, end: string)
  {
    LexLe(start, now) && LexLe(now, end)
  }

  /** For well-formed readings the window is the numeric interval. */
  lemma WindowIsNumericInterval(now: string, start: string, end: string)
    requires WellFormedClock(now) && WellFormedClock(start) && WellFormedClock(end)
    ensures InWindow(now, start, end) <==> ClockCode(start) <= ClockCode(now) <= ClockCode(end)
  {
    ClockOrderIsNumeric(now, start);
    ClockOrderIsNumeric(end, now);
  }

  const HOUR_MS: int := 3_600_000

  /** Start of the clock hour containing the epoch-millisecond instant `ms`,
      counted in hours (truncation to minute zero). */
  function HourBucket(ms: int): (h: int)
    ensures h * HOUR_MS <= ms < (h + 1) * HOUR_MS
  {
    ms / HOUR_MS
  }

  /** Hour buckets never decrease as time goes forward. */
  lemma HourBucketMonotone(a: int, b: int)
    requires a <= b
    ensures HourBucket(a) <= HourBucket(b)
  {
  }

  // ---------------------------------------------------------------------
  // Substring search and JavaScript `String.prototype.replace` with a
  // string pattern (first occurrence only).

  predicate OccursAt(s: string, pat: string, i: int)
  {
    0 <= i && i + |pat| <= |s| && s[i..i + |pat|] == pat
  }

  /** Position of the first occurrence of `pat` in `s` at or after `from`. */
  function IndexOfFrom(s: string, pat: string, from: nat): (r: Option<nat>)
    requires from <= |s|
    ensures r.Some? ==> from <= r.value && OccursAt(s, pat, r.value)
    ensures r.Some? ==> forall j :: from <= j < r.value ==> !OccursAt(s, pat, j)
    ensures r.None? ==> forall j :: from <= j ==> !OccursAt(s, pat, j)
    decreases |s| - from
  {
    if from + |pat| > |s| then None
    else if s[from..from + |pat|] == pat then Some(from)
    else IndexOfFrom(s, pat, from + 1)
  }

  /** `s.indexOf(pat)`: the first occurrence, or none. */
  function IndexOf(s: string, pat: string): (r: Option<nat>)
    ensures r.Some? ==> OccursAt(s, pat, r.value) && forall j :: 0 <= j < r.value ==> !OccursAt(s, pat, j)
    ensures r.None? ==> forall j :: !OccursAt(s, pat, j)
  {
    IndexOfFrom(s, pat, 0)
  }

  /** `s.replace(pat, rep)`: only the first occurrence is replaced, and a
      string without the pattern is returned unchanged. */
  function ReplaceFirst(s: string, pat: string, rep: string): (r: string)
    ensures IndexOf(s, pat).None? ==> r == s
    ensures IndexOf(s, pat).Some? ==>
              var i := IndexOf(s, pat).value;
              |r| == |s| - |pat| + |rep| && r[..i] == s[..i] &&
              r[i..i + |rep|] == rep && r[i + |rep|..] == s[i + |pat|..]
  {
    match IndexOf(s, pat)
    case None => s
    case Some(i) => s[..i] + rep + s[i + |pat|..]
  }

  /** Every occurrence of the pattern after the first survives a
      `ReplaceFirst`, shifted by the length difference. */
  lemma LaterOccurrenceSurvives(s: string, pat: string, rep: string, j: int)
    requires |pat| > 0
    requires IndexOf(s, pat).Some? && IndexOf(s, pat).value + |pat| <= j
    requires OccursAt(s, pat, j)
    ensures OccursAt(ReplaceFirst(s, pat, rep), pat, j - |pat| + |rep|)
  {
    var i := IndexOf(s, pat).value;
    var r := ReplaceFirst(s, pat, rep);
    var k := j - |pat| + |rep|;
    assert r == s[..i] + rep + s[i + |pat|..];
    forall t | 0 <= t < |pat|
      ensures r[k + t] == pat[t]
    {
      assert r[k + t] == s[i + |pat|..][k + t - i - |rep|];
    }
    assert r[k..k + |pat|] == pat;
  }

  /** `lines.join(sep)`. */
  function Join(lines: seq<string>, sep: string): (r: string)
    ensures |lines| == 0 ==> r == ""
    ensures |lines| == 1 ==> r == lines[0]
  {
    if |lines| == 0 then ""
    else if |lines| == 1 then lines[0]
    else Join(lines[..|lines| - 1], sep) + sep + lines[|lines| - 1]
  }

  // ---------------------------------------------------------------------
  // Decimal rendering of counters in log texts.

  function DigitChar(d: nat): (c: char)
    requires d < 10
    ensures IsDigit(c) && DigitValue(c) == d
  {
    ('0' as int + d) as char
  }

  /** Decimal digits of `n`, as template literals render an integer. */
  function NatToString(n: nat): (s: string)
    ensures |s| > 0
    ensures forall i :: 0 <= i < |s| ==> IsDigit(s[i])
    ensures ParseDigits(s) == n
  {
    if n < 10 then [DigitChar(n)]
    else
      var p := NatToString(n / 10);
      assert ParseDigits(p + [DigitChar(n % 10)]) == ParseDigits(p) * 10 + n % 10 by {
        assert (p + [DigitChar(n % 10)])[..|p|] == p;
      }
      p + [DigitChar(n % 10)]
  }

  /** Value of a string of decimal digits. */
  function ParseDigits(s: string): nat
    requires forall i :: 0 <= i < |s| ==> IsDigit(s[i])
  {
    if |s| == 0 then 0 else ParseDigits(s[..|s| - 1]) * 10 + DigitValue(s[|s| - 1])
  }
}
